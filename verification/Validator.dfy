/** Full validation of a migration: one scan of the base table row by row, one scan of
    the target table page by page, both by OFFSET in id order, each sending an event for
    every inconsistency it meets. */
module Validation {
  import opened Tables
  import opened DoubleWrite

  datatype EventType = TargetMissing | Neq | BaseMissing

  // The name of the side a validator took as base.
  datatype Direction = SRC | DST | Unrecognised(name: string)

  datatype Event = Event(id: int, direction: Direction, typ: EventType)

  /** What is wrong with one id, stated without reference to any scan. */
  function Inconsistency(base: Table, target: Table, id: int): Option<EventType> {
    match (Lookup(base, id), Lookup(target, id))
    case (Some(a), Some(b)) => if a == b then None else Some(Neq)
    case (Some(_), None) => Some(TargetMissing)
    case (None, Some(_)) => Some(BaseMissing)
    case (None, None) => None
  }

  lemma InconsistencyMeans(base: Table, target: Table, id: int)
    ensures Inconsistency(base, target, id) == Some(TargetMissing) <==> id in base && id !in target
    ensures Inconsistency(base, target, id) == Some(BaseMissing) <==> id !in base && id in target
    ensures Inconsistency(base, target, id) == Some(Neq) <==> id in base && id in target && base[id] != target[id]
  {
  }

  lemma ConsistentIsEqual(base: Table, target: Table)
    requires forall id :: Inconsistency(base, target, id).None?
    ensures base == target
  {
    forall id ensures id in base <==> id in target
    {
      assert Inconsistency(base, target, id).None?;
    }
    assert base.Keys == target.Keys;
    forall id | id in base ensures base[id] == target[id] {
      assert Inconsistency(base, target, id).None?;
    }
  }

  // Queries that fail with an error other than "not found": base rows by offset, target rows
  // by id, pages of either table by offset. A target page whose context is cancelled is among
  // the failed ones; a base row's cancelled context, by offset, ends the base scan.
  datatype ScanFaults = ScanFaults(baseRows: set<nat>, targetRows: set<int>,
                                   targetPages: set<nat>, basePages: set<nat>, cancelled: set<nat>)

  const NO_FAULTS := ScanFaults({}, {}, {}, {}, {})

  // ---------- Base to target ----------

  function CompareRow(base: Table, target: Table, id: int, dir: Direction, f: ScanFaults): seq<Event>
    requires id in base
  {
    if id in f.targetRows then []
    else if id !in target then [Event(id, dir, TargetMissing)]
    else if base[id] != target[id] then [Event(id, dir, Neq)]
    else []
  }

  function ForwardFrom(base: Table, target: Table, dir: Direction, f: ScanFaults, offset: nat): seq<Event>
    decreases |base| - offset
  {
    if offset >= |base.Keys| || offset in f.cancelled then []
    else
      OffsetIsRank(base.Keys, offset);
      (if offset in f.baseRows then []
       else CompareRow(base, target, SortedIds(base.Keys)[offset], dir, f))
      + ForwardFrom(base, target, dir, f, offset + 1)
  }

  // The base scan from offset on reads and compares this id.
  ghost predicate Compared(base: Table, f: ScanFaults, offset: nat, id: int) {
    && id in base && Rank(base.Keys, id) >= offset && Rank(base.Keys, id) !in f.baseRows && id !in f.targetRows
    && forall o :: offset <= o <= Rank(base.Keys, id) ==> o !in f.cancelled
  }

  ghost predicate Truthful(base: Table, target: Table, dir: Direction, e: Event) {
    e.direction == dir && Inconsistency(base, target, e.id) == Some(e.typ)
  }

  ghost predicate Increasing(events: seq<Event>) {
    forall i, j :: 0 <= i < j < |events| ==> events[i].id < events[j].id
  }

  lemma IncreasingConcat(a: seq<Event>, b: seq<Event>)
    requires Increasing(a) && Increasing(b)
    requires forall x, y :: x in a && y in b ==> x.id < y.id
    ensures Increasing(a + b)
  {
  }

  lemma ComparedFrom(base: Table, f: ScanFaults, offset: nat, id: int)
    requires offset < |base.Keys| && offset !in f.cancelled
    ensures |SortedIds(base.Keys)| == |base.Keys|
    ensures SortedIds(base.Keys)[offset] in base && Rank(base.Keys, SortedIds(base.Keys)[offset]) == offset
    ensures Compared(base, f, offset, id) <==>
            Compared(base, f, offset + 1, id) ||
            (id == SortedIds(base.Keys)[offset] && offset !in f.baseRows && id !in f.targetRows)
    ensures Compared(base, f, offset + 1, id) ==> SortedIds(base.Keys)[offset] < id
  {
    OffsetIsRank(base.Keys, offset);
    var here := SortedIds(base.Keys)[offset];
    if id in base {
      RankInRange(base.Keys, id);
      if id < here {
        RankStrict(base.Keys, id, here);
      }
    }
  }

  lemma CompareRowExact(base: Table, target: Table, id: int, dir: Direction, f: ScanFaults)
    requires id in base
    ensures |CompareRow(base, target, id, dir, f)| <= 1
    ensures forall e :: e in CompareRow(base, target, id, dir, f) <==>
              e.id == id && id !in f.targetRows && Truthful(base, target, dir, e)
  {
  }

  // The events from offset on are exactly these.
  ghost predicate ForwardEvents(base: Table, target: Table, dir: Direction, f: ScanFaults, offset: nat,
                                sent: seq<Event>)
  {
    && Increasing(sent)
    && forall e :: e in sent <==> Compared(base, f, offset, e.id) && Truthful(base, target, dir, e)
  }

  lemma RowThenRest(base: Table, target: Table, dir: Direction, f: ScanFaults, offset: nat, here: int,
                    later: seq<Event>)
    requires offset < |base.Keys| && offset !in f.cancelled
    requires |SortedIds(base.Keys)| == |base.Keys| && here == SortedIds(base.Keys)[offset] && here in base
    requires ForwardEvents(base, target, dir, f, offset + 1, later)
    ensures ForwardEvents(base, target, dir, f, offset,
                          (if offset in f.baseRows then [] else CompareRow(base, target, here, dir, f)) + later)
  {
    var now := if offset in f.baseRows then [] else CompareRow(base, target, here, dir, f);
    CompareRowExact(base, target, here, dir, f);
    hide Compared, SortedIds, CompareRow, Truthful;
    forall e: Event
      ensures e in now + later <==> Compared(base, f, offset, e.id) && Truthful(base, target, dir, e)
      ensures e in later ==> here < e.id
    {
      ComparedFrom(base, f, offset, e.id);
    }
    IncreasingConcat(now, later);
  }

  /** The base scan sends, in id order, exactly the truth about each inconsistent id it
      could read before being cancelled: a failed read only loses that row's event. */
  lemma {:induction false} ForwardExact(base: Table, target: Table, dir: Direction, f: ScanFaults, offset: nat)
    ensures ForwardEvents(base, target, dir, f, offset, ForwardFrom(base, target, dir, f, offset))
    decreases |base| - offset
  {
    if offset >= |base.Keys| {
      forall e: Event | Compared(base, f, offset, e.id) ensures false {
        RankInRange(base.Keys, e.id);
      }
    } else if offset !in f.cancelled {
      ForwardExact(base, target, dir, f, offset + 1);
      OffsetIsRank(base.Keys, offset);
      hide ForwardEvents, CompareRow, SortedIds;
      RowThenRest(base, target, dir, f, offset, SortedIds(base.Keys)[offset],
                  ForwardFrom(base, target, dir, f, offset + 1));
    }
  }

  // ---------- Target to base ----------

  function Page(target: Table, offset: nat, batch: nat): (page: seq<int>)
    requires offset <= |target.Keys|
    ensures |page| == if offset + batch <= |target.Keys| then batch else |target.Keys| - offset
  {
    SortedIdsLength(target.Keys);
    var ids := SortedIds(target.Keys);
    if offset + batch <= |ids| then ids[offset..offset + batch] else ids[offset..]
  }

  // The ids of a page the base does not have, in page order.
  function MissingFrom(base: Table, page: seq<int>): seq<int> {
    if page == [] then []
    else
      var rest := MissingFrom(base, page[..|page| - 1]);
      var last := page[|page| - 1];
      if last in base then rest else rest + [last]
  }

  function BaseMissingEvents(ids: seq<int>, dir: Direction): (events: seq<Event>)
    ensures |events| == |ids|
  {
    seq(|ids|, i requires 0 <= i < |ids| => Event(ids[i], dir, BaseMissing))
  }

  // A failed base query looks like a page with no match, so the whole page is reported.
  function PageEvents(base: Table, page: seq<int>, dir: Direction, baseFailed: bool): seq<Event> {
    BaseMissingEvents(if baseFailed then page else MissingFrom(base, page), dir)
  }

  // A failed target query looks like the end of the table, so the scan stops there.
  function BackwardFrom(base: Table, target: Table, dir: Direction, batch: nat, f: ScanFaults, offset: nat): seq<Event>
    requires batch > 0
    decreases |target| - offset
  {
    if offset >= |target.Keys| || offset in f.targetPages then []
    else
      PageEvents(base, Page(target, offset, batch), dir, offset in f.basePages)
      + BackwardFrom(base, target, dir, batch, f, offset + batch)
  }

  // The page holding a rank, counting pages from offset; and whether the scan gets there.
  function PageStart(offset: nat, batch: nat, rank: nat): nat
    requires batch > 0
    decreases rank - offset
  {
    if rank < offset + batch then offset else PageStart(offset + batch, batch, rank)
  }

  predicate Reaches(offset: nat, batch: nat, rank: nat, f: ScanFaults)
    requires batch > 0
    decreases rank - offset
  {
    offset !in f.targetPages && (rank < offset + batch || Reaches(offset + batch, batch, rank, f))
  }

  // The target scan from offset on reports this id as missing from the base.
  ghost predicate ReportsMissing(base: Table, target: Table, batch: nat, f: ScanFaults, offset: nat, id: int)
    requires batch > 0
  {
    && id in target && Rank(target.Keys, id) >= offset
    && Reaches(offset, batch, Rank(target.Keys, id), f)
    && (id !in base || PageStart(offset, batch, Rank(target.Keys, id)) in f.basePages)
  }

  lemma {:induction false} MissingFromExact(base: Table, page: seq<int>)
    requires forall i, j :: 0 <= i < j < |page| ==> page[i] < page[j]
    ensures var missing := MissingFrom(base, page);
            && (forall i, j :: 0 <= i < j < |missing| ==> missing[i] < missing[j])
            && forall id :: id in missing <==> id in page && id !in base
  {
    if page != [] {
      var init, last := page[..|page| - 1], page[|page| - 1];
      MissingFromExact(base, init);
      assert page == init + [last];
      var rest := MissingFrom(base, init);
      forall i | 0 <= i < |rest| ensures rest[i] < last {
        assert rest[i] in init;
      }
    }
  }

  lemma PageExact(target: Table, offset: nat, batch: nat)
    requires offset <= |target.Keys|
    ensures var page := Page(target, offset, batch);
            && (forall i, j :: 0 <= i < j < |page| ==> page[i] < page[j])
            && forall id :: id in page <==>
                 id in target && offset <= Rank(target.Keys, id) < offset + batch
  {
    var ids, page := SortedIds(target.Keys), Page(target, offset, batch);
    SortedIdsLength(target.Keys);
    forall i: nat | i < |page| ensures page[i] in target && Rank(target.Keys, page[i]) == offset + i {
      OffsetIsRank(target.Keys, offset + i);
      assert page[i] == ids[offset + i];
    }
    forall i, j | 0 <= i < j < |page| ensures page[i] < page[j] {
      if page[j] < page[i] {
        RankStrict(target.Keys, page[j], page[i]);
      }
    }
    forall id | id in target && offset <= Rank(target.Keys, id) < offset + batch ensures id in page {
      RankInRange(target.Keys, id);
      assert page[Rank(target.Keys, id) - offset] == id;
    }
  }

  lemma PageEventsExact(base: Table, page: seq<int>, dir: Direction, baseFailed: bool)
    requires forall i, j :: 0 <= i < j < |page| ==> page[i] < page[j]
    ensures var events := PageEvents(base, page, dir, baseFailed);
            && Increasing(events)
            && forall e :: e in events <==>
                 e == Event(e.id, dir, BaseMissing) && e.id in page && (baseFailed || e.id !in base)
  {
    MissingFromExact(base, page);
    var ids := if baseFailed then page else MissingFrom(base, page);
    var events := PageEvents(base, page, dir, baseFailed);
    forall id | id in ids ensures Event(id, dir, BaseMissing) in events {
      var i :| 0 <= i < |ids| && ids[i] == id;
      assert events[i] == Event(id, dir, BaseMissing);
    }
  }

  // A page's reports are those of the ids on it, and the rest are the later pages'.
  lemma ReportsByPage(base: Table, target: Table, batch: nat, f: ScanFaults, offset: nat, id: int)
    requires batch > 0 && offset < |target.Keys| && offset !in f.targetPages
    ensures var page := Page(target, offset, batch);
            ReportsMissing(base, target, batch, f, offset, id) <==>
            (id in page && (offset in f.basePages || id !in base)) ||
            ReportsMissing(base, target, batch, f, offset + batch, id)
  {
    PageExact(target, offset, batch);
  }

  // The events from offset on are exactly these.
  ghost predicate BackwardEvents(base: Table, target: Table, dir: Direction, batch: nat, f: ScanFaults, offset: nat,
                                 sent: seq<Event>)
    requires batch > 0
  {
    && Increasing(sent)
    && forall e :: e in sent <==>
         e == Event(e.id, dir, BaseMissing) && ReportsMissing(base, target, batch, f, offset, e.id)
  }

  lemma PageThenRest(base: Table, target: Table, dir: Direction, batch: nat, f: ScanFaults, offset: nat,
                     now: seq<Event>, later: seq<Event>)
    requires batch > 0 && offset < |target.Keys| && offset !in f.targetPages
    requires now == PageEvents(base, Page(target, offset, batch), dir, offset in f.basePages)
    requires BackwardEvents(base, target, dir, batch, f, offset + batch, later)
    ensures BackwardEvents(base, target, dir, batch, f, offset, now + later)
  {
    PageExact(target, offset, batch);
    PageEventsExact(base, Page(target, offset, batch), dir, offset in f.basePages);
    hide ReportsMissing, Page, PageEvents;
    forall e: Event
      ensures e in now + later <==>
              e == Event(e.id, dir, BaseMissing) && ReportsMissing(base, target, batch, f, offset, e.id)
    {
      ReportsByPage(base, target, batch, f, offset, e.id);
    }
    forall a, b | a in now && b in later ensures a.id < b.id {
      ReportsAfter(base, target, batch, f, offset, a.id, b.id);
    }
    IncreasingConcat(now, later);
  }

  /** The target scan sends, in id order, one base-missing event for each id it reaches
      that the base lacks, and for every id of a page whose base query failed. */
  lemma {:induction false} BackwardExact(base: Table, target: Table, dir: Direction, batch: nat, f: ScanFaults,
                                         offset: nat)
    requires batch > 0
    ensures BackwardEvents(base, target, dir, batch, f, offset, BackwardFrom(base, target, dir, batch, f, offset))
    decreases |target| - offset
  {
    if offset >= |target.Keys| {
      forall id | ReportsMissing(base, target, batch, f, offset, id) ensures false {
        RankInRange(target.Keys, id);
      }
    } else if offset !in f.targetPages {
      BackwardExact(base, target, dir, batch, f, offset + batch);
      hide BackwardEvents, Page, PageEvents;
      PageThenRest(base, target, dir, batch, f, offset,
                   PageEvents(base, Page(target, offset, batch), dir, offset in f.basePages),
                   BackwardFrom(base, target, dir, batch, f, offset + batch));
    }
  }

  lemma ReportsAfter(base: Table, target: Table, batch: nat, f: ScanFaults, offset: nat, a: int, b: int)
    requires batch > 0 && offset < |target.Keys|
    requires a in Page(target, offset, batch) && ReportsMissing(base, target, batch, f, offset + batch, b)
    ensures a < b
  {
    PageExact(target, offset, batch);
    if b < a {
      RankStrict(target.Keys, b, a);
    }
  }

  // ---------- Both scans ----------

  lemma {:induction false} IncreasingOnce(events: seq<Event>, e: Event)
    requires Increasing(events)
    ensures multiset(events)[e] == if e in events then 1 else 0
  {
    if events != [] {
      var init, last := events[..|events| - 1], events[|events| - 1];
      assert events == init + [last];
      IncreasingOnce(init, e);
    }
  }

  /** On quiescent tables of any size, with no query failing, the two scans together send
      each event as often as it is true: once for each inconsistent id, with its type and
      direction, and nothing else. */
  lemma FullValidationExact(base: Table, target: Table, dir: Direction, batch: nat, e: Event)
    requires batch > 0
    ensures multiset(ForwardFrom(base, target, dir, NO_FAULTS, 0))[e]
          + multiset(BackwardFrom(base, target, dir, batch, NO_FAULTS, 0))[e]
         == if Truthful(base, target, dir, e) then 1 else 0
  {
    hide ForwardFrom, BackwardFrom, Rank, Reaches, PageStart;
    ForwardExact(base, target, dir, NO_FAULTS, 0);
    BackwardExact(base, target, dir, batch, NO_FAULTS, 0);
    IncreasingOnce(ForwardFrom(base, target, dir, NO_FAULTS, 0), e);
    IncreasingOnce(BackwardFrom(base, target, dir, batch, NO_FAULTS, 0), e);
    NeverStopped(0, batch, Rank(target.Keys, e.id));
  }

  lemma {:induction false} NeverStopped(offset: nat, batch: nat, rank: nat)
    requires batch > 0
    ensures Reaches(offset, batch, rank, NO_FAULTS)
    decreases rank - offset
  {
    if rank >= offset + batch {
      NeverStopped(offset + batch, batch, rank);
    }
  }

  // ---------- The validator ----------

  // The events of which no send failed.
  function Delivered(events: seq<Event>, lost: set<nat>): seq<Event> {
    if events == [] then []
    else
      var front, last := Delivered(events[..|events| - 1], lost), events[|events| - 1];
      if |events| - 1 in lost then front else front + [last]
  }

  lemma DeliveredLast(front: seq<Event>, last: Event, lost: set<nat>)
    ensures Delivered(front + [last], lost) ==
            if |front| in lost then Delivered(front, lost) else Delivered(front, lost) + [last]
  {
    assert (front + [last])[..|front|] == front;
  }

  /** Everything is delivered if and only if no send failed; otherwise as many events are
      missing as sends failed. */
  lemma {:induction false} AllDelivered(events: seq<Event>, lost: set<nat>)
    ensures |Delivered(events, lost)| + |set i: nat | i < |events| && i in lost| == |events|
    ensures Delivered(events, lost) == events <==> forall i: nat :: i < |events| ==> i !in lost
  {
    var failed := set i: nat | i < |events| && i in lost;
    if events == [] {
      assert failed == {};
    } else {
      var n, front, last := |events| - 1, events[..|events| - 1], events[|events| - 1];
      var before := set i: nat | i < n && i in lost;
      AllDelivered(front, lost);
      assert events == front + [last];
      DeliveredLast(front, last, lost);
      hide Delivered;
      assert failed == if n in lost then before + {n} else before;
      assert n in lost ==> n in failed;
      assert before <= failed;
    }
  }

  // The events notified so far, and those of them written to Kafka: sends may fail.
  class Producer {
    const lost: set<nat>
    var notified: seq<Event>
    var sent: seq<Event>

    ghost predicate Valid()
      reads this
    {
      sent == Delivered(notified, lost)
    }

    constructor (lost: set<nat>)
      ensures Valid() && this.lost == lost && notified == []
    {
      this.lost, notified, sent := lost, [], [];
    }

    method ProduceInconsistentEvent(e: Event) returns (ok: bool)
      requires Valid()
      modifies this
      ensures Valid() && notified == old(notified) + [e]
      ensures ok <==> |old(notified)| !in lost
    {
      ok := |notified| !in lost;
      assert (notified + [e])[..|notified|] == notified;
      if ok {
        sent := sent + [e];
      }
      notified := notified + [e];
    }
  }

  // The rows of a page the base does have, as its "id in ?" query returns them.
  function Present(base: Table, page: seq<int>): seq<int> {
    if page == [] then []
    else
      var rest := Present(base, page[..|page| - 1]);
      var last := page[|page| - 1];
      if last in base then rest + [last] else rest
  }

  lemma {:induction false} NonePresent(base: Table, page: seq<int>)
    requires Present(base, page) == []
    ensures MissingFrom(base, page) == page
  {
    if page != [] {
      NonePresent(base, page[..|page| - 1]);
    }
  }

  // DiffSetFunc: the ids of the page that are not among those found.
  function Diff(page: seq<int>, found: seq<int>): seq<int> {
    if page == [] then []
    else
      var rest := Diff(page[..|page| - 1], found);
      var last := page[|page| - 1];
      if last in found then rest else rest + [last]
  }

  lemma {:induction false} PresentIff(base: Table, page: seq<int>)
    ensures forall id :: id in Present(base, page) <==> id in page && id in base
  {
    if page != [] {
      PresentIff(base, page[..|page| - 1]);
      assert page == page[..|page| - 1] + [page[|page| - 1]];
    }
  }

  lemma SomePresent(base: Table, page: seq<int>)
    ensures Present(base, page) != [] <==> exists id :: id in page && id in base
  {
    PresentIff(base, page);
    if Present(base, page) != [] {
      assert Present(base, page)[0] in Present(base, page);
    }
  }

  lemma {:induction false} DiffIsMissing(base: Table, page: seq<int>, found: seq<int>)
    requires forall id :: id in page ==> (id in found <==> id in base)
    ensures Diff(page, found) == MissingFrom(base, page)
  {
    if page != [] {
      DiffIsMissing(base, page[..|page| - 1], found);
    }
  }

  // Failed reads still to come: the base scan steps over each of them once.
  ghost function Ahead(f: ScanFaults, offset: nat): nat {
    |set o | o in f.baseRows && o >= offset|
  }

  lemma AheadShrinks(f: ScanFaults, offset: nat)
    ensures Ahead(f, offset + 1) == Ahead(f, offset) - if offset in f.baseRows then 1 else 0
  {
    var now, next := set o | o in f.baseRows && o >= offset, set o | o in f.baseRows && o >= offset + 1;
    assert next == if offset in f.baseRows then now - {offset} else now;
  }

  ghost predicate Joins(done: seq<Event>, rest: seq<Event>, end: seq<Event>) {
    done + rest == end
  }

  lemma JoinsMore(done: seq<Event>, told: seq<Event>, rest: seq<Event>, end: seq<Event>)
    requires Joins(done, told + rest, end)
    ensures Joins(done + told, rest, end)
  {
    assert (done + told) + rest == done + (told + rest);
  }

  lemma JoinsNone(done: seq<Event>, end: seq<Event>)
    requires Joins(done, [], end)
    ensures done == end
  {
  }

  // One round of the base scan.
  lemma ForwardStep(base: Table, target: Table, dir: Direction, f: ScanFaults, offset: nat)
    ensures var now, rest := ForwardFrom(base, target, dir, f, offset), ForwardFrom(base, target, dir, f, offset + 1);
            if offset in f.cancelled then now == []
            else if offset in f.baseRows then now == rest
            else if offset >= |base.Keys| then now == []
            else |SortedIds(base.Keys)| == |base.Keys| && SortedIds(base.Keys)[offset] in base
                 && now == CompareRow(base, target, SortedIds(base.Keys)[offset], dir, f) + rest
    ensures Ahead(f, offset + 1) <= Ahead(f, offset)
    ensures offset in f.baseRows ==> Ahead(f, offset + 1) < Ahead(f, offset)
  {
    if offset < |base.Keys| {
      OffsetIsRank(base.Keys, offset);
    }
    AheadShrinks(f, offset);
    hide CompareRow, SortedIds;
  }

  class Validator {
    const base: Database
    const target: Database
    const direction: Direction
    const batchSize: nat
    const producer: Producer

    constructor (base: Database, target: Database, direction: Direction, producer: Producer)
      ensures this.base == base && this.target == target && this.direction == direction
      ensures this.producer == producer && batchSize == 100
    {
      this.base, this.target, this.direction, this.producer := base, target, direction, producer;
      batchSize := 100;
    }

    ghost function Forward(f: ScanFaults, offset: nat): seq<Event>
      reads base
      reads target
    {
      ForwardFrom(base.db.rows, target.db.rows, direction, f, offset)
    }

    ghost function Backward(f: ScanFaults, offset: nat): seq<Event>
      requires batchSize > 0
      reads base
      reads target
    {
      BackwardFrom(base.db.rows, target.db.rows, direction, batchSize, f, offset)
    }

    // A failed send is only logged.
    method Notify(e: Event)
      requires producer.Valid()
      modifies producer
      ensures producer.Valid()
      ensures producer.notified == old(producer.notified) + [e]
    {
      var _ := producer.ProduceInconsistentEvent(e);
    }

    method ValidateBaseToTarget(f: ScanFaults)
      requires producer.Valid()
      modifies producer
      ensures producer.Valid()
      ensures producer.notified == old(producer.notified) + Forward(f, 0)
    {
      var offset, stop := 0, false;
      ghost var size, end := |base.db.rows.Keys|, producer.notified + Forward(f, 0);
      assert Joins(producer.notified, Forward(f, 0), end);
      hide *;
      while !stop
        invariant producer.Valid() && size == |base.db.rows.Keys|
        invariant Joins(producer.notified, if stop then [] else Forward(f, offset), end)
        decreases !stop, Ahead(f, offset), size - offset
      {
        ghost var before, told, rest := producer.notified, [], [];
        offset, stop, told, rest := ScanOne(f, offset);
        JoinsMore(before, told, rest, end);
      }
      JoinsNone(producer.notified, end);
    }

    // One round of the base scan.
    method ScanOne(f: ScanFaults, offset: nat)
        returns (next: nat, stop: bool, ghost told: seq<Event>, ghost rest: seq<Event>)
      requires producer.Valid()
      modifies producer
      ensures producer.Valid() && producer.notified == old(producer.notified) + told
      ensures Forward(f, offset) == told + rest && rest == if stop then [] else Forward(f, next)
      ensures !stop ==> next == offset + 1 && Ahead(f, next) <= Ahead(f, offset)
                        && (Ahead(f, next) < Ahead(f, offset) || offset < |base.db.rows.Keys|)
    {
      ForwardStep(base.db.rows, target.db.rows, direction, f, offset);
      hide CompareRow, ForwardFrom, SortedIds, Ahead;
      next, stop, told, rest := offset, true, [], [];
      if offset in f.cancelled {
        return;
      }
      if offset in f.baseRows {
        return offset + 1, false, [], Forward(f, offset + 1);
      }
      if offset >= |base.db.rows.Keys| {
        return;
      }
      var id := SortedIds(base.db.rows.Keys)[offset];
      told := CompareRow(base.db.rows, target.db.rows, id, direction, f);
      rest := Forward(f, offset + 1);
      CompareOne(id, f);
      next, stop := offset + 1, false;
    }

    // One base row against the target's.
    method CompareOne(id: int, f: ScanFaults)
      requires id in base.db.rows && producer.Valid()
      modifies producer
      ensures producer.Valid()
      ensures producer.notified == old(producer.notified) + CompareRow(base.db.rows, target.db.rows, id, direction, f)
      ensures id in f.targetRows || (id in target.db.rows && base.db.rows[id] == target.db.rows[id]) ==>
        producer.notified == old(producer.notified)
      ensures id !in f.targetRows && id !in target.db.rows ==>
        producer.notified == old(producer.notified) + [Event(id, direction, TargetMissing)]
      ensures id !in f.targetRows && id in target.db.rows && base.db.rows[id] != target.db.rows[id] ==>
        producer.notified == old(producer.notified) + [Event(id, direction, Neq)]
    {
      if id in f.targetRows {
      } else if id !in target.db.rows {
        Notify(Event(id, direction, TargetMissing));
      } else if base.db.rows[id] != target.db.rows[id] {
        Notify(Event(id, direction, Neq));
      }
    }

    method NotifyBaseMissing(ids: seq<int>)
      requires producer.Valid()
      modifies producer
      ensures producer.Valid()
      ensures producer.notified == old(producer.notified) + BaseMissingEvents(ids, direction)
    {
      for i := 0 to |ids|
        invariant producer.Valid()
        invariant producer.notified == old(producer.notified) + BaseMissingEvents(ids[..i], direction)
      {
        Notify(Event(ids[i], direction, BaseMissing));
        assert BaseMissingEvents(ids[..i + 1], direction)
            == BaseMissingEvents(ids[..i], direction) + [Event(ids[i], direction, BaseMissing)];
      }
      assert ids[..|ids|] == ids;
    }

    // One page against the base; done says that the page was not full and that the base had
    // some of it. Otherwise the scan goes on.
    method ValidatePage(page: seq<int>, baseFailed: bool) returns (done: bool)
      requires page != []
      requires producer.Valid()
      modifies producer
      ensures producer.Valid()
      ensures producer.notified == old(producer.notified) + PageEvents(base.db.rows, page, direction, baseFailed)
      ensures done <==> |page| < batchSize && !baseFailed && exists id :: id in page && id in base.db.rows
    {
      var found := if baseFailed then [] else Present(base.db.rows, page);
      ghost var rows := base.db.rows;
      SomePresent(rows, page);
      if |found| == 0 {
        if !baseFailed {
          NonePresent(rows, page);
        }
        NotifyBaseMissing(page);
        return false;
      }
      PresentIff(rows, page);
      DiffIsMissing(rows, page, found);
      NotifyBaseMissing(Diff(page, found));
      done := |page| < batchSize;
    }

    method ValidateTargetToBase(f: ScanFaults)
      requires batchSize > 0
      requires producer.Valid()
      modifies producer
      ensures producer.Valid()
      ensures producer.notified == old(producer.notified) + Backward(f, 0)
    {
      hide Page, PageEvents;
      var offset := 0;
      while true
        invariant producer.Valid()
        invariant producer.notified + Backward(f, offset) == old(producer.notified) + Backward(f, 0)
        decreases |target.db.rows| - offset
      {
        ghost var rest := Backward(f, offset + batchSize);
        var page := if offset in f.targetPages || offset >= |target.db.rows.Keys| then []
                    else Page(target.db.rows, offset, batchSize);
        if |page| == 0 {
          return;
        }
        assert rest == Backward(f, offset + |page|);
        var done := ValidatePage(page, offset in f.basePages);
        if done {
          return;
        }
        offset := offset + |page|;
      }
    }

    /** Both scans run to the end of their tables and send what they find. The source
        runs them at once; on quiescent tables only the order of the events differs. */
    method Validate(f: ScanFaults)
      requires batchSize > 0
      requires producer.Valid()
      modifies producer
      ensures producer.Valid()
      ensures producer.notified == old(producer.notified) + Forward(f, 0) + Backward(f, 0)
    {
      ValidateBaseToTarget(f);
      ValidateTargetToBase(f);
    }
  }
}
