/** Repairing a migration: each inconsistency event makes the target's row for that id
    what the base's row is now, whatever kind of inconsistency the event named. */
module Fixing {
  import opened Tables
  import opened ConnPool
  import opened DoubleWrite
  import opened Validation

  // ---------- One fix ----------

  // Delete the row if the base has none, otherwise upsert every column from the base.
  function FixStmt(base: Table, id: int): Stmt {
    if id in base
    then Stmt(id, (row: Option<Row>) => Applied(Some(base[id]), if row.None? then 1 else 2))
    else Stmt(id, (row: Option<Row>) => Applied(None, if row.None? then 0 else 1))
  }

  function Repaired(base: Table, target: Table, id: int): Table {
    Apply(target, FixStmt(base, id))
  }

  lemma RepairedAt(base: Table, target: Table, id: int, other: int)
    ensures Lookup(Repaired(base, target, id), other)
         == if other == id then Lookup(base, id) else Lookup(target, other)
  {
  }

  // ---------- Replaying events of one direction ----------

  function Replay(base: Table, target: Table, ids: seq<int>): Table {
    if ids == [] then target
    else Repaired(base, Replay(base, target, ids[..|ids| - 1]), ids[|ids| - 1])
  }

  /** Replay repairs exactly the ids it names, so order, repeats and spurious ids do not
      matter. */
  lemma {:induction false} ReplayAt(base: Table, target: Table, ids: seq<int>, id: int)
    ensures Lookup(Replay(base, target, ids), id)
         == if id in ids then Lookup(base, id) else Lookup(target, id)
  {
    if ids != [] {
      var front, last := ids[..|ids| - 1], ids[|ids| - 1];
      assert ids == front + [last];
      ReplayAt(base, target, front, id);
      RepairedAt(base, Replay(base, target, front), last, id);
    }
  }

  lemma SameTable(a: Table, b: Table)
    requires forall id :: Lookup(a, id) == Lookup(b, id)
    ensures a == b
  {
    forall id ensures id in a <==> id in b {
      assert Lookup(a, id) == Lookup(b, id);
    }
    assert a.Keys == b.Keys;
    forall id | id in a ensures a[id] == b[id] {
      assert Lookup(a, id) == Lookup(b, id);
    }
  }

  /** Replay makes the target equal to the base exactly when every inconsistent id is
      among the events. */
  lemma ReplayConverges(base: Table, target: Table, ids: seq<int>)
    ensures Replay(base, target, ids) == base <==>
            forall id :: Inconsistency(base, target, id).Some? ==> id in ids
  {
    forall id
      ensures Lookup(Replay(base, target, ids), id) == Lookup(base, id) <==>
              (Inconsistency(base, target, id).Some? ==> id in ids)
    {
      ReplayAt(base, target, ids, id);
    }
    if forall id :: Inconsistency(base, target, id).Some? ==> id in ids {
      SameTable(Replay(base, target, ids), base);
    }
  }

  lemma ReplayOrderFree(base: Table, target: Table, a: seq<int>, b: seq<int>)
    requires forall id :: id in a <==> id in b
    ensures Replay(base, target, a) == Replay(base, target, b)
  {
    forall id ensures Lookup(Replay(base, target, a), id) == Lookup(Replay(base, target, b), id) {
      ReplayAt(base, target, a, id);
      ReplayAt(base, target, b, id);
    }
    SameTable(Replay(base, target, a), Replay(base, target, b));
  }

  function Ids(events: seq<Event>): (ids: seq<int>)
    ensures |ids| == |events|
  {
    seq(|events|, i requires 0 <= i < |events| => events[i].id)
  }

  /** A full validation followed by the replay of its events, however the two scans'
      events interleave and whatever else is replayed with them, repairs everything. */
  lemma ValidateThenReplay(base: Table, target: Table, dir: Direction, batch: nat, events: seq<Event>)
    requires batch > 0
    requires forall e :: e in ForwardFrom(base, target, dir, NO_FAULTS, 0) ==> e in events
    requires forall e :: e in BackwardFrom(base, target, dir, batch, NO_FAULTS, 0) ==> e in events
    ensures Replay(base, target, Ids(events)) == base
  {
    forall id | Inconsistency(base, target, id).Some? ensures id in Ids(events) {
      var e := Event(id, dir, Inconsistency(base, target, id).value);
      FullValidationExact(base, target, dir, batch, e);
      assert e in events;
      var i :| 0 <= i < |events| && events[i] == e;
      assert Ids(events)[i] == id;
    }
    ReplayConverges(base, target, Ids(events));
  }

  // ---------- Events of both directions ----------

  // SRC events repair dst from src, DST events src from dst, others are refused.
  function ConsumeOne(rows: Pair<Table>, e: Event): Pair<Table> {
    match e.direction
    case SRC => Pair(rows.src, Repaired(rows.src, rows.dst, e.id))
    case DST => Pair(Repaired(rows.dst, rows.src, e.id), rows.dst)
    case Unrecognised(_) => rows
  }

  function ConsumeAll(rows: Pair<Table>, events: seq<Event>): Pair<Table> {
    if events == [] then rows
    else ConsumeOne(ConsumeAll(rows, events[..|events| - 1]), events[|events| - 1])
  }

  /** Events of one direction never touch the base, and replay onto the target. */
  lemma {:induction false} OneDirection(rows: Pair<Table>, events: seq<Event>, dir: Direction)
    requires dir == SRC || dir == DST
    requires forall e :: e in events ==> e.direction == dir
    ensures var base := if dir == SRC then Src else Dst;
            ConsumeAll(rows, events) ==
            rows.Put(Other(base), Replay(rows.Get(base), rows.Get(Other(base)), Ids(events)))
  {
    if events != [] {
      var front := events[..|events| - 1];
      OneDirection(rows, front, dir);
      assert Ids(events)[..|events| - 1] == Ids(front);
    }
  }

  // ---------- The fixer and the consumer ----------

  class OverrideFixer {
    const base: Database
    const target: Database

    constructor (base: Database, target: Database)
      ensures this.base == base && this.target == target
    {
      this.base, this.target := base, target;
    }

    /** Base reads and target writes may fail; then the target keeps its row. */
    method Fix(id: int, readFails: bool, writeFails: bool) returns (ok: bool)
      requires base != target
      modifies target
      ensures ok <==> !readFails && !writeFails
      ensures target.db.rows == if ok then Repaired(base.db.rows, old(target.db.rows), id) else old(target.db.rows)
    {
      if readFails {
        return false;
      }
      var r: Reply;
      if id !in base.db.rows {
        var delete := Stmt(id, (row: Option<Row>) => Applied(None, if row.None? then 0 else 1));
        r := target.ExecContext(delete, writeFails);
      } else {
        var t := base.db.rows[id];
        var upsert := Stmt(id, (row: Option<Row>) => Applied(Some(t), if row.None? then 1 else 2));
        r := target.ExecContext(upsert, writeFails);
      }
      ok := r.Affected?;
    }
  }

  class Consumer {
    const src: Database
    const dst: Database
    const srcFirst: OverrideFixer
    const dstFirst: OverrideFixer

    ghost predicate Valid() {
      && src != dst
      && srcFirst.base == src && srcFirst.target == dst
      && dstFirst.base == dst && dstFirst.target == src
    }

    ghost function Rows(): Pair<Table>
      reads src, dst
    {
      Pair(src.db.rows, dst.db.rows)
    }

    constructor (src: Database, dst: Database)
      requires src != dst
      ensures Valid() && this.src == src && this.dst == dst
    {
      this.src, this.dst := src, dst;
      srcFirst := new OverrideFixer(src, dst);
      dstFirst := new OverrideFixer(dst, src);
    }

    method Consume(e: Event, readFails: bool, writeFails: bool) returns (ok: bool)
      requires Valid()
      modifies src, dst
      ensures ok <==> !e.direction.Unrecognised? && !readFails && !writeFails
      ensures Rows() == if ok then ConsumeOne(old(Rows()), e) else old(Rows())
      ensures ok && e.direction == SRC ==>
        && src.db.rows == old(src.db.rows)
        && forall id :: Lookup(dst.db.rows, id) == Lookup(if id == e.id then src.db.rows else old(dst.db.rows), id)
      ensures ok && e.direction == DST ==>
        && dst.db.rows == old(dst.db.rows)
        && forall id :: Lookup(src.db.rows, id) == Lookup(if id == e.id then dst.db.rows else old(src.db.rows), id)
    {
      match e.direction
      case SRC => ok := srcFirst.Fix(e.id, readFails, writeFails);
      case DST => ok := dstFirst.Fix(e.id, readFails, writeFails);
      case Unrecognised(_) => ok := false;
    }

    /** The partition loop hands every message on and marks it. The events that take effect are
        those at the indices whose direction is known and whose fix does not fail, in order: all
        of them when there is no failure, and the others are lost. */
    method ConsumeClaim(msgs: seq<Event>, failing: set<nat>) returns (marked: nat, ghost at: seq<nat>)
      requires Valid()
      modifies src, dst
      ensures marked == |msgs| && Succeeding(msgs, failing, at, marked)
      ensures Rows() == ConsumeAll(old(Rows()), Chosen(msgs, at))
      ensures (forall e :: e in msgs ==> !e.direction.Unrecognised?) && (forall i :: i in failing ==> i >= |msgs|) ==>
                Rows() == ConsumeAll(old(Rows()), msgs)
    {
      marked, at := 0, [];
      ghost var rows, applied := Rows(), [];
      NothingTaken(rows, msgs, failing);
      hide *;
      while marked < |msgs|
        invariant marked <= |msgs| && Taken(msgs, failing, at, marked, applied)
        invariant Rows() == ConsumeAll(rows, applied)
      {
        var ok := Consume(msgs[marked], marked in failing, false);
        TakenMore(msgs, failing, at, marked, applied);
        if ok {
          ConsumeMore(rows, applied, msgs[marked]);
          at, applied := at + [marked], applied + [msgs[marked]];
        }
        marked := marked + 1;
      }
      TakenAll(msgs, failing, at, applied);
    }
  }

  // What the loop has handed on so far.
  ghost predicate Taken(msgs: seq<Event>, failing: set<nat>, at: seq<nat>, n: nat, applied: seq<Event>) {
    Succeeding(msgs, failing, at, n) && applied == Chosen(msgs, at)
  }

  lemma NothingTaken(rows: Pair<Table>, msgs: seq<Event>, failing: set<nat>)
    ensures Taken(msgs, failing, [], 0, []) && ConsumeAll(rows, []) == rows
  {
  }

  lemma TakenMore(msgs: seq<Event>, failing: set<nat>, at: seq<nat>, n: nat, applied: seq<Event>)
    requires n < |msgs| && Taken(msgs, failing, at, n, applied)
    ensures if msgs[n].direction.Unrecognised? || n in failing then Taken(msgs, failing, at, n + 1, applied)
            else Taken(msgs, failing, at + [n], n + 1, applied + [msgs[n]])
  {
    SucceedingMore(msgs, failing, at, n);
    hide Succeeding, Chosen;
  }

  lemma TakenAll(msgs: seq<Event>, failing: set<nat>, at: seq<nat>, applied: seq<Event>)
    requires Taken(msgs, failing, at, |msgs|, applied)
    ensures Succeeding(msgs, failing, at, |msgs|) && applied == Chosen(msgs, at)
    ensures (forall e :: e in msgs ==> !e.direction.Unrecognised?) && (forall i :: i in failing ==> i >= |msgs|) ==>
              applied == msgs
  {
    if (forall e :: e in msgs ==> !e.direction.Unrecognised?) && (forall i :: i in failing ==> i >= |msgs|) {
      AllChosen(msgs, failing, at);
    }
  }

  // The indices among the first n, in order, of the messages whose direction is known and
  // whose fix does not fail.
  ghost predicate Succeeding(msgs: seq<Event>, failing: set<nat>, at: seq<nat>, n: nat) {
    && n <= |msgs|
    && (forall i :: i in at <==> 0 <= i < n && !msgs[i].direction.Unrecognised? && i !in failing)
    && (forall i, j :: 0 <= i < j < |at| ==> at[i] < at[j])
  }

  lemma SucceedingMore(msgs: seq<Event>, failing: set<nat>, at: seq<nat>, n: nat)
    requires Succeeding(msgs, failing, at, n) && n < |msgs|
    ensures Chosen(msgs, at + [n]) == Chosen(msgs, at) + [msgs[n]]
    ensures Succeeding(msgs, failing,
                       if msgs[n].direction.Unrecognised? || n in failing then at else at + [n], n + 1)
  {
    assert forall j :: 0 <= j < |at| ==> at[j] in at;
  }

  // The events at the given indices.
  function Chosen(msgs: seq<Event>, at: seq<nat>): (events: seq<Event>)
    ensures |events| == |at|
    ensures forall j :: 0 <= j < |at| && at[j] < |msgs| ==> events[j] == msgs[at[j]]
  {
    seq(|at|, j requires 0 <= j < |at| => if at[j] < |msgs| then msgs[at[j]] else Event(0, SRC, Neq))
  }

  // Increasing indices that name every message are all of them in turn.
  lemma AllChosen(msgs: seq<Event>, failing: set<nat>, at: seq<nat>)
    requires Succeeding(msgs, failing, at, |msgs|)
    requires (forall e :: e in msgs ==> !e.direction.Unrecognised?) && (forall i :: i in failing ==> i >= |msgs|)
    ensures Chosen(msgs, at) == msgs
  {
    forall i | 0 <= i < |msgs| ensures i in at {
      assert msgs[i] in msgs;
    }
    FirstInTurn(at, |msgs|);
    forall j: nat | j < |at| ensures at[j] >= j && at[j] < |msgs| {
      AtLeast(at, j);
      assert at[j] in at;
    }
    assert at != [] ==> |at| - 1 <= at[|at| - 1] < |msgs|;
  }

  lemma {:induction false} AtLeast(at: seq<nat>, j: nat)
    requires j < |at| && forall i, k :: 0 <= i < k < |at| ==> at[i] < at[k]
    ensures at[j] >= j
  {
    if j > 0 {
      AtLeast(at, j - 1);
    }
  }

  lemma {:induction false} FirstInTurn(at: seq<nat>, n: nat)
    requires forall i :: 0 <= i < n ==> i in at
    requires forall i, j :: 0 <= i < j < |at| ==> at[i] < at[j]
    ensures n <= |at| && forall j :: 0 <= j < n ==> at[j] == j
  {
    if n > 0 {
      FirstInTurn(at, n - 1);
      assert n - 1 in at;
      var k :| 0 <= k < |at| && at[k] == n - 1;
      AtLeast(at, n - 1);
    }
  }

  lemma ConsumeMore(rows: Pair<Table>, events: seq<Event>, e: Event)
    ensures ConsumeAll(rows, events + [e]) == ConsumeOne(ConsumeAll(rows, events), e)
  {
    assert (events + [e])[..|events|] == events;
  }

  /** The events of a full validation, in any order and however often, and any others of its
      direction, leave both databases equal to the base when consumed. */
  lemma ValidateThenConsume(rows: Pair<Table>, dir: Direction, batch: nat, events: seq<Event>)
    requires batch > 0 && (dir == SRC || dir == DST)
    requires forall e :: e in events ==> e.direction == dir
    requires var base := if dir == SRC then Src else Dst;
             && (forall e :: e in ForwardFrom(rows.Get(base), rows.Get(Other(base)), dir, NO_FAULTS, 0) ==> e in events)
             && (forall e :: e in BackwardFrom(rows.Get(base), rows.Get(Other(base)), dir, batch, NO_FAULTS, 0) ==>
                   e in events)
    ensures var base := rows.Get(if dir == SRC then Src else Dst);
            ConsumeAll(rows, events) == Pair(base, base)
  {
    var base := if dir == SRC then Src else Dst;
    OneDirection(rows, events, dir);
    ValidateThenReplay(rows.Get(base), rows.Get(Other(base)), dir, batch, events);
  }
}
