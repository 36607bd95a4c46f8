/** A full validation running while the application keeps writing to both stores: row
    reads, page reads, double writes and fixes interleave one step at a time. */
module LiveMigration {
  import opened Tables
  import opened ConnPool
  import opened Validation
  import opened Fixing

  // base is the store queries read from; offset and pageOffset are the two scans' places.
  datatype State = State(base: Table, target: Table, offset: nat, scanned: bool,
                         pageOffset: nat, paged: bool, pending: multiset<Event>)

  // The validator's direction and page size, which no step changes.
  datatype Setting = Setting(dir: Direction, batch: nat)

  // A double write, whether the base fails it, and whether the target does.
  datatype Update = Update(stmt: Stmt, failed: bool, lost: bool)

  // Drop is an event whose fix fails: its message is consumed all the same.
  datatype Step = ScanRow | ScanPage | Write(update: Update) | FixOne(event: Event) | Drop(event: Event)

  function Start(base: Table, target: Table): State {
    State(base, target, 0, false, 0, false, multiset{})
  }

  // Read the next base row and compare it with the target's.
  function ScanRowStep(c: Setting, s: State): State {
    if s.scanned then s
    else if s.offset >= |s.base.Keys| then s.(scanned := true)
    else
      OffsetIsRank(s.base.Keys, s.offset);
      var id := SortedIds(s.base.Keys)[s.offset];
      s.(offset := s.offset + 1,
         pending := s.pending + multiset(CompareRow(s.base, s.target, id, c.dir, NO_FAULTS)))
  }

  // Read the next page of target ids and look them up in the base.
  function ScanPageStep(c: Setting, s: State): State {
    if s.paged then s
    else if s.pageOffset >= |s.target.Keys| then s.(paged := true)
    else
      var page := Page(s.target, s.pageOffset, c.batch);
      var told := s.(pending := s.pending + multiset(PageEvents(s.base, page, c.dir, false)));
      if Present(s.base, page) != [] && |page| < c.batch then told.(paged := true)
      else told.(pageOffset := s.pageOffset + |page|)
  }

  predicate Accepted(s: State, w: Update) {
    !w.failed && w.stmt.effect(Lookup(s.base, w.stmt.id)).Applied?
  }

  // The target gets only what the base accepted, and may fail or refuse it.
  function WriteStep(s: State, w: Update): State {
    if !Accepted(s, w) then s
    else s.(base := Apply(s.base, w.stmt), target := if w.lost then s.target else Apply(s.target, w.stmt))
  }

  function FixStep(s: State, e: Event): State {
    if e !in s.pending then s
    else s.(target := Repaired(s.base, s.target, e.id), pending := s.pending - multiset{e})
  }

  function Next(c: Setting, s: State, step: Step): State {
    match step
    case ScanRow => ScanRowStep(c, s)
    case ScanPage => ScanPageStep(c, s)
    case Write(w) => WriteStep(s, w)
    case FixOne(e) => FixStep(s, e)
    case Drop(e) => s.(pending := s.pending - multiset{e})
  }

  function After(c: Setting, s: State, steps: seq<Step>): State {
    if steps == [] then s else Next(c, After(c, s, steps[..|steps| - 1]), steps[|steps| - 1])
  }

  /** A write step is what the pool does under a first pattern, whichever databases fail. */
  lemma WriteIsDoubleExec(s: State, dbs: Pair<Db>, stmt: Stmt, pattern: Pattern, f: Faults)
    requires Mirrors(pattern)
    requires dbs.Get(Primary(pattern)).rows == s.base && dbs.Get(Other(Primary(pattern))).rows == s.target
    ensures var dbs' := DoubleExec(pattern, dbs, stmt, f).0;
            var s' := WriteStep(s, Update(stmt, f.Get(Primary(pattern)), f.Get(Other(Primary(pattern)))));
            dbs'.Get(Primary(pattern)).rows == s'.base && dbs'.Get(Other(Primary(pattern))).rows == s'.target
  {
  }

  // ---------- The invariant ----------

  ghost predicate Pending(s: State, id: int) {
    exists e :: e in s.pending && e.id == id
  }

  // A scan will still read this id from the side that has it.
  ghost predicate Unscanned(s: State, id: int) {
    if id in s.base then !s.scanned && Rank(s.base.Keys, id) >= s.offset
    else id in s.target && !s.paged && Rank(s.target.Keys, id) >= s.pageOffset
  }

  ghost predicate Differs(s: State, id: int) {
    Lookup(s.base, id) != Lookup(s.target, id)
  }

  // The stores differ on this id and nothing under way will find out.
  ghost predicate Hidden(s: State, id: int) {
    Differs(s, id) && !Unscanned(s, id) && !Pending(s, id)
  }

  // Every id on which the stores differ is still to be scanned or awaits a fix.
  ghost predicate Inv(s: State) {
    forall id :: !Hidden(s, id)
  }

  lemma InvStart(base: Table, target: Table)
    ensures Inv(Start(base, target))
  {
  }

  // ---------- Scan steps hide nothing and find nothing hidden ----------

  lemma PendingGrows(s: State, s': State, more: seq<Event>, id: int)
    requires s'.pending == s.pending + multiset(more)
    ensures Pending(s', id) <==> Pending(s, id) || exists e :: e in more && e.id == id
  {
    if Pending(s, id) {
      var e :| e in s.pending && e.id == id;
      assert e in s'.pending;
    }
    if e :| e in more && e.id == id {
      assert e in s'.pending;
    }
  }

  lemma ScanRowKeeps(c: Setting, s: State, id: int)
    ensures Hidden(ScanRowStep(c, s), id) <==> Hidden(s, id)
  {
    var s' := ScanRowStep(c, s);
    if id in s.base {
      RankInRange(s.base.Keys, id);
    }
    if !s.scanned && s.offset < |s.base.Keys| {
      OffsetIsRank(s.base.Keys, s.offset);
      var here := SortedIds(s.base.Keys)[s.offset];
      var told := CompareRow(s.base, s.target, here, c.dir, NO_FAULTS);
      RowTold(c, s, here, id);
      PendingGrows(s, s', told, id);
      hide CompareRow, SortedIds, Rank, Pending;
    }
  }

  // A compared row tells of itself, if it differs.
  lemma RowTold(c: Setting, s: State, here: int, id: int)
    requires here in s.base
    ensures (exists e :: e in CompareRow(s.base, s.target, here, c.dir, NO_FAULTS) && e.id == id) <==>
            id == here && Differs(s, here)
  {
    var told := CompareRow(s.base, s.target, here, c.dir, NO_FAULTS);
    if Differs(s, here) {
      assert told[0] in told && told[0].id == here;
    }
  }

  lemma ScanPageKeeps(c: Setting, s: State, id: int)
    requires c.batch > 0
    ensures Hidden(ScanPageStep(c, s), id) <==> Hidden(s, id)
  {
    if id in s.target {
      RankInRange(s.target.Keys, id);
    }
    if !s.paged && s.pageOffset < |s.target.Keys| {
      var page := Page(s.target, s.pageOffset, c.batch);
      PageTold(c, s, id);
      PendingGrows(s, ScanPageStep(c, s), PageEvents(s.base, page, c.dir, false), id);
      hide PageEvents, Present, Page, Rank, Pending;
    }
  }

  // A page tells of just the target-only ids whose rank it covers.
  lemma PageTold(c: Setting, s: State, id: int)
    requires c.batch > 0 && s.pageOffset < |s.target.Keys|
    ensures var page := Page(s.target, s.pageOffset, c.batch);
            (exists e :: e in PageEvents(s.base, page, c.dir, false) && e.id == id) <==>
            id in s.target && id !in s.base && s.pageOffset <= Rank(s.target.Keys, id) < s.pageOffset + |page|
  {
    var page := Page(s.target, s.pageOffset, c.batch);
    PageExact(s.target, s.pageOffset, c.batch);
    PageEventsExact(s.base, page, c.dir, false);
    if id in s.target {
      RankInRange(s.target.Keys, id);
    }
    assert Event(id, c.dir, BaseMissing).id == id;
  }

  // ---------- When a write hides a difference ----------

  // The next row the base scan would read, were it to read one.
  ghost predicate NextRow(s: State, id: int) {
    id in s.base && Rank(s.base.Keys, id) == s.offset
  }

  // The first row of the next target page, if the base lacks it.
  ghost predicate NextStray(s: State, id: int) {
    id in s.target && id !in s.base && Rank(s.target.Keys, id) == s.pageOffset
  }

  // Removing this base row moves an unreported difference from the scan's offset to before it.
  ghost predicate SkipsRow(s: State, gone: int) {
    && gone in s.base && !s.scanned && Rank(s.base.Keys, gone) < s.offset
    && exists id :: NextRow(s, id) && Differs(s, id) && !Pending(s, id)
  }

  // Removing this target row does the same to the page scan.
  ghost predicate SkipsStray(s: State, gone: int) {
    && gone in s.target && !s.paged && Rank(s.target.Keys, gone) < s.pageOffset
    && exists id :: NextStray(s, id) && !Pending(s, id)
  }

  // The rows the write leaves differ, no event is pending, and the scan of the side that
  // has the id is past its place.
  ghost predicate LeavesUnseen(s: State, w: Update) {
    var id, s' := w.stmt.id, WriteStep(s, w);
    && Differs(s', id) && !Pending(s, id)
    && (id in s'.base ==> s.scanned || Rank(s.base.Keys, id) < s.offset)
    && (id !in s'.base ==> s.paged || Rank(s.target.Keys, id) < s.pageOffset)
  }

  // What makes a write hide a difference, in terms of the state before it.
  ghost predicate Exposes(s: State, w: Update) {
    var id, s' := w.stmt.id, WriteStep(s, w);
    || LeavesUnseen(s, w)
    || (id !in s'.base && SkipsRow(s, id))
    || (id !in s'.target && SkipsStray(s, id))
  }

  lemma RankIgnoresSelf(before: set<int>, after: set<int>, id: int)
    requires after + {id} == before + {id}
    ensures Rank(after, id) == Rank(before, id)
  {
    assert (set x | x in after && x < id) == (set x | x in before && x < id);
  }

  // An id at or past an offset falls behind it just when it is at the offset and an id
  // before the offset is removed.
  lemma FallsBehind(before: set<int>, after: set<int>, changed: int, id: int, offset: nat)
    requires after == before || after == before + {changed} || after == before - {changed}
    requires id in before && id != changed && Rank(before, id) >= offset
    ensures Rank(after, id) < offset <==>
            changed in before && changed !in after && Rank(before, changed) < offset && Rank(before, id) == offset
  {
    if changed in before && changed !in after {
      RankRemove(before, changed, id);
      if changed < id {
        RankStrict(before, changed, id);
      } else {
        RankStrict(before, id, changed);
      }
    } else {
      RankMonotone(before, after, id);
    }
  }

  lemma WriteTouchesOne(s: State, w: Update)
    ensures var s', id := WriteStep(s, w), w.stmt.id;
            && s' == s.(base := s'.base, target := s'.target)
            && s'.base.Keys + {id} == s.base.Keys + {id} && s'.target.Keys + {id} == s.target.Keys + {id}
            && forall x :: x != id ==>
                 Lookup(s'.base, x) == Lookup(s.base, x) && Lookup(s'.target, x) == Lookup(s.target, x)
  {
  }

  lemma WrittenHidden(s: State, w: Update)
    ensures Hidden(WriteStep(s, w), w.stmt.id) <==> LeavesUnseen(s, w)
  {
    var s', id := WriteStep(s, w), w.stmt.id;
    WriteTouchesOne(s, w);
    RankIgnoresSelf(s.base.Keys, s'.base.Keys, id);
    RankIgnoresSelf(s.target.Keys, s'.target.Keys, id);
    hide WriteStep, Rank;
  }

  // Another id is hidden by a write only through the place it had under its scan.
  lemma OtherHidden(s: State, s': State, id: int, x: int)
    requires s' == s.(base := s'.base, target := s'.target) && x != id && !Hidden(s, x)
    requires s'.base.Keys + {id} == s.base.Keys + {id} && s'.target.Keys + {id} == s.target.Keys + {id}
    requires Lookup(s'.base, x) == Lookup(s.base, x) && Lookup(s'.target, x) == Lookup(s.target, x)
    ensures Hidden(s', x) <==>
            && Differs(s, x) && !Pending(s, x)
            && if x in s.base
               then id !in s'.base && id in s.base && !s.scanned && Rank(s.base.Keys, id) < s.offset && NextRow(s, x)
               else id !in s'.target && id in s.target && !s.paged && Rank(s.target.Keys, id) < s.pageOffset
                    && NextStray(s, x)
  {
    assert Pending(s', x) <==> Pending(s, x);
    if x in s.base && Rank(s.base.Keys, x) >= s.offset {
      OneKey(s.base.Keys, s'.base.Keys, id);
      FallsBehind(s.base.Keys, s'.base.Keys, id, x, s.offset);
    }
    if x in s.target && Rank(s.target.Keys, x) >= s.pageOffset {
      OneKey(s.target.Keys, s'.target.Keys, id);
      FallsBehind(s.target.Keys, s'.target.Keys, id, x, s.pageOffset);
    }
    hide Rank, Pending;
  }

  lemma OneKey(before: set<int>, after: set<int>, id: int)
    requires after + {id} == before + {id}
    ensures after == if id in after then before + {id} else before - {id}
  {
  }

  /** A write keeps the invariant exactly when it does not expose: whichever databases fail
      or refuse it, and whatever it does to its row on either side. */
  lemma WriteExact(s: State, w: Update)
    requires Inv(s)
    ensures Inv(WriteStep(s, w)) <==> !Exposes(s, w)
  {
    var s', id := WriteStep(s, w), w.stmt.id;
    WriteTouchesOne(s, w);
    WrittenHidden(s, w);
    forall x | x != id
      ensures Hidden(s', x) <==>
              && Differs(s, x) && !Pending(s, x)
              && if x in s.base
                 then id !in s'.base && id in s.base && !s.scanned && Rank(s.base.Keys, id) < s.offset && NextRow(s, x)
                 else id !in s'.target && id in s.target && !s.paged && Rank(s.target.Keys, id) < s.pageOffset
                      && NextStray(s, x)
    {
      OtherHidden(s, s', id, x);
    }
    hide WriteStep, Hidden, Pending, LeavesUnseen, Rank;
    if id !in s'.base && SkipsRow(s, id) {
      var x :| NextRow(s, x) && Differs(s, x) && !Pending(s, x);
      assert Hidden(s', x);
    }
    if id !in s'.target && SkipsStray(s, id) {
      var x :| NextStray(s, x) && !Pending(s, x);
      assert Differs(s, x);
      assert Hidden(s', x);
    }
  }

  /** No UPDATE that both databases answer exposes anything, wherever its row is or is not,
      and no INSERT of an id above all others. */
  lemma UpdatesAndAppendsHarmless(s: State, stmt: Stmt)
    requires Inv(s)
    requires stmt.effect(Lookup(s.base, stmt.id)).Applied? && stmt.effect(Lookup(s.target, stmt.id)).Applied?
    requires
      || ((stmt.id in s.base <==> stmt.effect(Lookup(s.base, stmt.id)).row.Some?)
          && (stmt.id in s.target ==> stmt.effect(Lookup(s.target, stmt.id)).row.Some?))
      || (forall id :: id in s.base || id in s.target ==> id < stmt.id)
    ensures !Exposes(s, Update(stmt, false, false))
  {
    assert !Hidden(s, stmt.id);
    hide Pending, Rank;
  }

  // ---------- When a fix hides a difference ----------

  // The fix deletes a row the page scan has passed, while the first row of the next page is
  // the target's alone and unreported.
  ghost predicate FixExposes(s: State, e: Event) {
    e.id !in s.base && SkipsStray(s, e.id)
  }

  lemma FixTouchesOne(s: State, e: Event)
    requires e in s.pending
    ensures var s' := FixStep(s, e);
            && s' == s.(target := s'.target, pending := s.pending - multiset{e})
            && s'.target.Keys + {e.id} == s.target.Keys + {e.id}
            && (e.id in s'.target <==> e.id in s.base) && !Differs(s', e.id)
            && forall x :: x != e.id ==> Lookup(s'.target, x) == Lookup(s.target, x)
  {
    RepairedAt(s.base, s.target, e.id, e.id);
    forall x | x != e.id ensures Lookup(FixStep(s, e).target, x) == Lookup(s.target, x) {
      RepairedAt(s.base, s.target, e.id, x);
    }
  }

  lemma PendingShrinks(s: State, s': State, e: Event, id: int)
    requires s'.pending == s.pending - multiset{e} && id != e.id
    ensures Pending(s', id) <==> Pending(s, id)
  {
    if Pending(s, id) {
      var other :| other in s.pending && other.id == id;
      assert other in s'.pending;
    }
  }

  // What a fix hides, id by id.
  lemma FixHidden(s: State, e: Event, x: int)
    requires e in s.pending && !Hidden(s, x)
    ensures Hidden(FixStep(s, e), x) <==>
            && e.id !in s.base && e.id in s.target && !s.paged && Rank(s.target.Keys, e.id) < s.pageOffset
            && NextStray(s, x) && !Pending(s, x)
  {
    var s' := FixStep(s, e);
    FixTouchesOne(s, e);
    assert Pending(s, e.id);
    hide FixStep;
    if x != e.id {
      PendingShrinks(s, s', e, x);
      OtherHidden(s, s.(target := s'.target), e.id, x);
      assert Hidden(s', x) <==> Hidden(s.(target := s'.target), x);
    }
    hide Rank;
  }

  /** A fix keeps the invariant exactly when it does not expose. */
  lemma FixExact(s: State, e: Event)
    requires Inv(s) && e in s.pending
    ensures Inv(FixStep(s, e)) <==> !FixExposes(s, e)
  {
    forall x
      ensures Hidden(FixStep(s, e), x) <==>
              && e.id !in s.base && e.id in s.target && !s.paged && Rank(s.target.Keys, e.id) < s.pageOffset
              && NextStray(s, x) && !Pending(s, x)
    {
      FixHidden(s, e, x);
    }
    hide FixStep, Hidden, Pending, Rank;
    if FixExposes(s, e) {
      var x :| NextStray(s, x) && !Pending(s, x);
      assert Hidden(FixStep(s, e), x);
    }
  }

  // The only event about a difference both scans have passed.
  ghost predicate DropExposes(s: State, e: Event) {
    && e in s.pending && Differs(s, e.id) && !Unscanned(s, e.id)
    && !Pending(s.(pending := s.pending - multiset{e}), e.id)
  }

  /** An event may be lost exactly when a scan, or another event, still covers its id. */
  lemma DropExact(c: Setting, s: State, e: Event)
    requires Inv(s)
    ensures Inv(Next(c, s, Drop(e))) <==> !DropExposes(s, e)
  {
    var s' := s.(pending := s.pending - multiset{e});
    if e !in s.pending {
      assert s'.pending == s.pending;
    }
    forall x | x != e.id ensures !Hidden(s', x) {
      PendingShrinks(s, s', e, x);
      assert !Hidden(s, x);
    }
    assert !Hidden(s, e.id);
    hide Pending, Rank;
    assert DropExposes(s, e) <==> e in s.pending && Hidden(s', e.id);
  }

  // ---------- Runs ----------

  ghost predicate Allowed(s: State, step: Step) {
    match step
    case Write(w) => !Exposes(s, w)
    case FixOne(e) => e in s.pending ==> !FixExposes(s, e)
    case Drop(e) => !DropExposes(s, e)
    case _ => true
  }

  ghost predicate AllowedRun(c: Setting, s: State, steps: seq<Step>) {
    steps == [] ||
    (AllowedRun(c, s, steps[..|steps| - 1]) &&
     Allowed(After(c, s, steps[..|steps| - 1]), steps[|steps| - 1]))
  }

  /** From a state with nothing hidden, a step hides nothing exactly when it is allowed. */
  lemma StepExact(c: Setting, s: State, step: Step)
    requires Inv(s) && c.batch > 0
    ensures Inv(Next(c, s, step)) <==> Allowed(s, step)
  {
    hide Hidden, ScanRowStep, ScanPageStep, WriteStep, FixStep, Exposes, FixExposes, DropExposes;
    match step {
      case ScanRow => forall id ensures !Hidden(ScanRowStep(c, s), id) { ScanRowKeeps(c, s, id); }
      case ScanPage => forall id ensures !Hidden(ScanPageStep(c, s), id) { ScanPageKeeps(c, s, id); }
      case Write(w) => WriteExact(s, w);
      case FixOne(e) =>
        if e in s.pending {
          FixExact(s, e);
        } else {
          FixOfNothing(s, e);
        }
      case Drop(e) => DropExact(c, s, e);
    }
  }

  lemma FixOfNothing(s: State, e: Event)
    requires e !in s.pending
    ensures FixStep(s, e) == s
  {
  }

  lemma {:induction false} InvHolds(c: Setting, s: State, steps: seq<Step>)
    requires Inv(s) && c.batch > 0 && AllowedRun(c, s, steps)
    ensures Inv(After(c, s, steps))
  {
    hide Inv, Next, Allowed;
    if steps != [] {
      var front, last := steps[..|steps| - 1], steps[|steps| - 1];
      InvHolds(c, s, front);
      StepExact(c, After(c, s, front), last);
    }
  }

  /** A run keeps the invariant at every point if and only if each of its steps is allowed. */
  lemma {:induction false} RunExact(c: Setting, s: State, steps: seq<Step>)
    requires Inv(s) && c.batch > 0
    ensures AllowedRun(c, s, steps) <==>
            forall n {:trigger steps[..n]} :: 0 <= n <= |steps| ==> Inv(After(c, s, steps[..n]))
  {
    hide Inv, Next, Allowed;
    if steps != [] {
      var front, last := steps[..|steps| - 1], steps[|steps| - 1];
      RunExact(c, s, front);
      forall n | 0 <= n <= |front| ensures steps[..n] == front[..n] {
      }
      assert steps[..|steps|] == steps && steps[..|front|] == front == front[..|front|];
      if Inv(After(c, s, front)) {
        StepExact(c, After(c, s, front), last);
      }
      if AllowedRun(c, s, steps) {
        forall n | 0 <= n <= |steps| ensures Inv(After(c, s, steps[..n])) {
          if n <= |front| {
            assert Inv(After(c, s, front[..n]));
          }
        }
      }
    }
  }

  // ---------- Convergence ----------

  ghost predicate Finished(s: State) {
    s.scanned && s.paged && s.pending == multiset{}
  }

  // The statements of a run's writes that reached the base, in order.
  function Traffic(steps: seq<Step>): seq<Stmt> {
    if steps == [] then []
    else
      var front, last := Traffic(steps[..|steps| - 1]), steps[|steps| - 1];
      if last.Write? && !last.update.failed then front + [last.update.stmt] else front
  }

  lemma ScansLeaveRows(c: Setting, s: State)
    ensures ScanRowStep(c, s).base == s.base && ScanRowStep(c, s).target == s.target
    ensures ScanPageStep(c, s).base == s.base && ScanPageStep(c, s).target == s.target
  {
    hide CompareRow, Page, PageEvents, Present, SortedIds;
  }

  lemma NextBase(c: Setting, s: State, step: Step)
    ensures Next(c, s, step).base ==
            if step.Write? && !step.update.failed then Apply(s.base, step.update.stmt) else s.base
  {
    ScansLeaveRows(c, s);
    hide ScanRowStep, ScanPageStep, Repaired;
  }

  /** Nothing but the application's own statements ever changes the base. */
  lemma {:induction false} BaseIsTraffic(c: Setting, s: State, steps: seq<Step>)
    ensures After(c, s, steps).base == ApplyAll(s.base, Traffic(steps))
  {
    if steps != [] {
      var front, last := steps[..|steps| - 1], steps[|steps| - 1];
      BaseIsTraffic(c, s, front);
      NextBase(c, After(c, s, front), last);
      if last.Write? && !last.update.failed {
        ApplyLast(s.base, Traffic(front), last.update.stmt);
      }
      hide Next, Apply, ApplyAll;
    }
  }

  lemma FinishedDiffers(s: State, id: int)
    requires Finished(s)
    ensures Hidden(s, id) <==> Differs(s, id)
  {
  }

  lemma NoDifference(s: State)
    requires forall id :: !Differs(s, id)
    ensures s.target == s.base
  {
    forall id ensures Lookup(s.base, id) == Lookup(s.target, id) {
      assert !Differs(s, id);
    }
    SameTable(s.base, s.target);
  }

  /** From any two tables, however scans, double writes, fixes and losses interleave, as long
      as none of them exposes: once both scans have ended and no event is left, the target is
      the base, which holds just what the application wrote. */
  lemma LiveMigrationConverges(c: Setting, base: Table, target: Table, steps: seq<Step>)
    requires c.batch > 0 && AllowedRun(c, Start(base, target), steps)
    requires Finished(After(c, Start(base, target), steps))
    ensures var end := After(c, Start(base, target), steps);
            end.target == end.base == ApplyAll(base, Traffic(steps))
  {
    var end := After(c, Start(base, target), steps);
    InvStart(base, target);
    InvHolds(c, Start(base, target), steps);
    BaseIsTraffic(c, Start(base, target), steps);
    forall id ensures !Differs(end, id) {
      FinishedDiffers(end, id);
    }
    NoDifference(end);
  }

  // ---------- What a validation still repairs once writing stops ----------

  // Scanning, and fixing once the page scan is over.
  ghost predicate Quiet(s: State, step: Step) {
    step.ScanRow? || step.ScanPage? || (step.FixOne? && s.paged)
  }

  ghost predicate QuietRun(c: Setting, s: State, steps: seq<Step>) {
    steps == [] ||
    (QuietRun(c, s, steps[..|steps| - 1]) && Quiet(After(c, s, steps[..|steps| - 1]), steps[|steps| - 1]))
  }

  lemma QuietFixKeeps(s: State, e: Event, id: int)
    requires s.paged
    ensures Hidden(FixStep(s, e), id) <==> Hidden(s, id)
  {
    if e in s.pending {
      FixTouchesOne(s, e);
      assert Pending(s, e.id);
      hide FixStep, Rank;
      if id != e.id {
        PendingShrinks(s, FixStep(s, e), e, id);
      }
    }
  }

  lemma QuietStepKeeps(c: Setting, s: State, step: Step, id: int)
    requires c.batch > 0 && Quiet(s, step)
    ensures Hidden(Next(c, s, step), id) <==> Hidden(s, id)
  {
    hide Hidden, ScanRowStep, ScanPageStep, FixStep;
    match step {
      case ScanRow => ScanRowKeeps(c, s, id);
      case ScanPage => ScanPageKeeps(c, s, id);
      case FixOne(e) => QuietFixKeeps(s, e, id);
    }
  }

  lemma {:induction false} QuietRunKeeps(c: Setting, s: State, steps: seq<Step>, id: int)
    requires c.batch > 0 && QuietRun(c, s, steps)
    ensures Hidden(After(c, s, steps), id) <==> Hidden(s, id)
  {
    hide Hidden, Next, Quiet;
    if steps != [] {
      var front, last := steps[..|steps| - 1], steps[|steps| - 1];
      QuietRunKeeps(c, s, front, id);
      QuietStepKeeps(c, After(c, s, front), last, id);
    }
  }

  /** From any state whatever, a quiet finish leaves the stores different on exactly the ids
      that were hidden when writing stopped; so it makes them equal if and only if the
      invariant held then. */
  lemma QuietFinishExact(c: Setting, s: State, steps: seq<Step>)
    requires c.batch > 0 && QuietRun(c, s, steps) && Finished(After(c, s, steps))
    ensures var end := After(c, s, steps);
            && (forall id :: Differs(end, id) <==> Hidden(s, id))
            && (end.target == end.base <==> Inv(s))
  {
    var end := After(c, s, steps);
    forall id ensures Differs(end, id) <==> Hidden(s, id) {
      QuietRunKeeps(c, s, steps, id);
      FinishedDiffers(end, id);
    }
    hide Hidden, After, QuietRun;
    if Inv(s) {
      NoDifference(end);
    }
  }

  // ---------- The run can always be finished ----------

  lemma QuietMore(c: Setting, s: State, steps: seq<Step>, step: Step)
    requires QuietRun(c, s, steps) && Quiet(After(c, s, steps), step)
    ensures QuietRun(c, s, steps + [step])
    ensures After(c, s, steps + [step]) == Next(c, After(c, s, steps), step)
  {
    assert (steps + [step])[..|steps|] == steps;
  }

  function Gap(size: nat, offset: nat): nat {
    if offset < size then size - offset else 0
  }

  // A bound on the scan steps left.
  function ScansLeft(s: State): nat {
    (if s.scanned then 0 else 1 + Gap(|s.base.Keys|, s.offset))
    + (if s.paged then 0 else 1 + Gap(|s.target.Keys|, s.pageOffset))
  }

  lemma ScanProgress(c: Setting, s: State)
    requires c.batch > 0 && !(s.scanned && s.paged)
    ensures ScansLeft(Next(c, s, if !s.scanned then ScanRow else ScanPage)) < ScansLeft(s)
  {
    hide CompareRow, PageEvents, Present, SortedIds;
  }

  lemma {:induction false} FinishScans(c: Setting, s: State, steps: seq<Step>) returns (more: seq<Step>)
    requires c.batch > 0 && QuietRun(c, s, steps)
    ensures QuietRun(c, s, more) && After(c, s, more).scanned && After(c, s, more).paged
    decreases ScansLeft(After(c, s, steps))
  {
    var now := After(c, s, steps);
    if now.scanned && now.paged {
      more := steps;
    } else {
      var step := if !now.scanned then ScanRow else ScanPage;
      QuietMore(c, s, steps, step);
      ScanProgress(c, now);
      hide Next, After, QuietRun, ScansLeft;
      more := FinishScans(c, s, steps + [step]);
    }
  }

  lemma FixProgress(c: Setting, s: State, e: Event)
    requires e in s.pending
    ensures |Next(c, s, FixOne(e)).pending| < |s.pending|
    ensures Next(c, s, FixOne(e)).scanned == s.scanned && Next(c, s, FixOne(e)).paged == s.paged
  {
    hide Repaired;
  }

  lemma {:induction false} FinishFixes(c: Setting, s: State, steps: seq<Step>) returns (more: seq<Step>)
    requires QuietRun(c, s, steps) && After(c, s, steps).scanned && After(c, s, steps).paged
    ensures QuietRun(c, s, more) && Finished(After(c, s, more))
    decreases |After(c, s, steps).pending|
  {
    var now := After(c, s, steps);
    if now.pending == multiset{} {
      more := steps;
    } else {
      var e :| e in now.pending;
      QuietMore(c, s, steps, FixOne(e));
      FixProgress(c, now, e);
      hide Next, After, QuietRun;
      more := FinishFixes(c, s, steps + [FixOne(e)]);
    }
  }

  /** Every state has a quiet finish. */
  lemma QuietFinish(c: Setting, s: State) returns (more: seq<Step>)
    requires c.batch > 0
    ensures QuietRun(c, s, more) && Finished(After(c, s, more))
  {
    var scans := FinishScans(c, s, []);
    more := FinishFixes(c, s, scans);
  }

  lemma {:induction false} QuietExtends(c: Setting, s: State, steps: seq<Step>, more: seq<Step>)
    requires AllowedRun(c, s, steps) && QuietRun(c, After(c, s, steps), more)
    ensures AllowedRun(c, s, steps + more) && Traffic(steps + more) == Traffic(steps)
    ensures After(c, s, steps + more) == After(c, After(c, s, steps), more)
    ensures forall step :: step in more ==> step.ScanRow? || step.ScanPage? || step.FixOne?
  {
    hide Next, FixExposes;
    if more == [] {
      assert steps + more == steps;
    } else {
      var front, last := more[..|more| - 1], more[|more| - 1];
      QuietExtends(c, s, steps, front);
      assert more == front + [last];
      assert (steps + more)[..|steps + more| - 1] == steps + front;
      QuietIsAllowed(After(c, s, steps + front), last);
    }
  }

  lemma QuietIsAllowed(s: State, step: Step)
    requires Quiet(s, step)
    ensures Allowed(s, step)
  {
  }

  /** From any point of any allowed run, scanning and fixing alone finish it. */
  lemma CanFinish(c: Setting, s: State, steps: seq<Step>) returns (longer: seq<Step>)
    requires c.batch > 0 && AllowedRun(c, s, steps)
    ensures steps <= longer && AllowedRun(c, s, longer) && Finished(After(c, s, longer))
    ensures forall step :: step in longer[|steps|..] ==> step.ScanRow? || step.ScanPage? || step.FixOne?
    ensures Traffic(longer) == Traffic(steps)
  {
    var more := QuietFinish(c, After(c, s, steps));
    QuietExtends(c, s, steps, more);
    longer := steps + more;
    assert longer[|steps|..] == more;
  }

  // Every way to finish quietly from here makes the stores equal.
  ghost predicate ConvergesFrom(c: Setting, s: State) {
    forall more :: QuietRun(c, s, more) && Finished(After(c, s, more)) ==>
      After(c, s, more).target == After(c, s, more).base
  }

  lemma ConvergesFromExact(c: Setting, s: State)
    requires c.batch > 0
    ensures ConvergesFrom(c, s) <==> Inv(s)
  {
    hide Inv, Finished, QuietRun, After;
    forall more | QuietRun(c, s, more) && Finished(After(c, s, more))
      ensures After(c, s, more).target == After(c, s, more).base <==> Inv(s)
    {
      QuietFinishExact(c, s, more);
    }
    var more := QuietFinish(c, s);
    assert QuietRun(c, s, more);
  }

  /** From any two tables, a run is such that stopping it anywhere and finishing quietly makes
      the stores equal if and only if each of its steps is allowed. */
  lemma StoppingAnywhereConverges(c: Setting, base: Table, target: Table, steps: seq<Step>)
    requires c.batch > 0
    ensures AllowedRun(c, Start(base, target), steps) <==>
            forall n {:trigger steps[..n]} :: 0 <= n <= |steps| ==>
              ConvergesFrom(c, After(c, Start(base, target), steps[..n]))
  {
    var s := Start(base, target);
    InvStart(base, target);
    RunExact(c, s, steps);
    hide Inv, AllowedRun, After, ConvergesFrom;
    forall n | 0 <= n <= |steps|
      ensures ConvergesFrom(c, After(c, s, steps[..n])) <==> Inv(After(c, s, steps[..n]))
    {
      ConvergesFromExact(c, After(c, s, steps[..n]));
    }
  }

  // ---------- Without traffic this is the full validation ----------

  // The events each scan has still to send while nothing else happens.
  function RowsToSend(c: Setting, s: State): multiset<Event> {
    if s.scanned then multiset{} else multiset(ForwardFrom(s.base, s.target, c.dir, NO_FAULTS, s.offset))
  }

  function PagesToSend(c: Setting, s: State): multiset<Event>
    requires c.batch > 0
  {
    if s.paged then multiset{} else multiset(BackwardFrom(s.base, s.target, c.dir, c.batch, NO_FAULTS, s.pageOffset))
  }

  // Nothing sent or still to send has been gained or lost, and neither store has changed.
  ghost predicate Conserved(c: Setting, from: State, to: State)
    requires c.batch > 0
  {
    && to.base == from.base && to.target == from.target
    && to.pending + RowsToSend(c, to) + PagesToSend(c, to) == from.pending + RowsToSend(c, from) + PagesToSend(c, from)
  }

  lemma ScanRowSends(c: Setting, s: State)
    requires c.batch > 0
    ensures Conserved(c, s, ScanRowStep(c, s))
  {
    var s' := ScanRowStep(c, s);
    RowMoves(c, s);
    assert PagesToSend(c, s') == PagesToSend(c, s);
    hide RowsToSend, PagesToSend, ScanRowStep;
  }

  lemma RowMoves(c: Setting, s: State)
    ensures var s' := ScanRowStep(c, s);
            && s' == s.(pending := s'.pending, scanned := s'.scanned, offset := s'.offset)
            && s'.pending + RowsToSend(c, s') == s.pending + RowsToSend(c, s)
  {
    hide CompareRow, SortedIds;
    if !s.scanned && s.offset < |s.base.Keys| {
      OffsetIsRank(s.base.Keys, s.offset);
    }
  }

  lemma ScanPageSends(c: Setting, s: State)
    requires c.batch > 0
    ensures Conserved(c, s, ScanPageStep(c, s))
  {
    var s' := ScanPageStep(c, s);
    PageMoves(c, s);
    assert RowsToSend(c, s') == RowsToSend(c, s);
    hide RowsToSend, PagesToSend, ScanPageStep;
    Reorder(s.pending, PagesToSend(c, s), RowsToSend(c, s));
    Reorder(s'.pending, PagesToSend(c, s'), RowsToSend(c, s'));
  }

  lemma Reorder<T>(a: multiset<T>, b: multiset<T>, c: multiset<T>)
    ensures a + c + b == (a + b) + c
  {
  }

  lemma PageMoves(c: Setting, s: State)
    requires c.batch > 0
    ensures var s' := ScanPageStep(c, s);
            && s' == s.(pending := s'.pending, paged := s'.paged, pageOffset := s'.pageOffset)
            && s'.pending + PagesToSend(c, s') == s.pending + PagesToSend(c, s)
  {
    hide PageEvents, Page, Present, BackwardFrom;
    BackwardStep(c, s);
  }

  // A page and the pages after it; after one that is not full, nothing is left to send.
  lemma BackwardStep(c: Setting, s: State)
    requires c.batch > 0
    ensures var sent := BackwardFrom(s.base, s.target, c.dir, c.batch, NO_FAULTS, s.pageOffset);
            if s.pageOffset >= |s.target.Keys| then sent == []
            else
              var page := Page(s.target, s.pageOffset, c.batch);
              var rest := BackwardFrom(s.base, s.target, c.dir, c.batch, NO_FAULTS, s.pageOffset + |page|);
              sent == PageEvents(s.base, page, c.dir, false) + rest && (|page| < c.batch ==> rest == [])
  {
  }

  /** Scan steps alone, in any interleaving, leave pending exactly the events a full
      validation of the two tables sends. */
  lemma QuietScansValidate(c: Setting, base: Table, target: Table, steps: seq<Step>)
    requires c.batch > 0 && forall step :: step in steps ==> step.ScanRow? || step.ScanPage?
    ensures var end := After(c, Start(base, target), steps);
            && end.base == base && end.target == target
            && end.pending + RowsToSend(c, end) + PagesToSend(c, end) ==
               multiset(ForwardFrom(base, target, c.dir, NO_FAULTS, 0))
               + multiset(BackwardFrom(base, target, c.dir, c.batch, NO_FAULTS, 0))
  {
    QuietScansConserve(c, Start(base, target), steps);
  }

  lemma {:induction false} QuietScansConserve(c: Setting, s: State, steps: seq<Step>)
    requires c.batch > 0 && forall step :: step in steps ==> step.ScanRow? || step.ScanPage?
    ensures Conserved(c, s, After(c, s, steps))
  {
    if steps != [] {
      var front, last := steps[..|steps| - 1], steps[|steps| - 1];
      assert last in steps;
      QuietScansConserve(c, s, front);
      var mid := After(c, s, front);
      ScanRowSends(c, mid);
      ScanPageSends(c, mid);
      hide RowsToSend, PagesToSend, ScanRowStep, ScanPageStep;
    }
  }

  // ---------- Instances of exposure ----------

  function Delete(id: int): Stmt {
    Stmt(id, (row: Option<Row>) => Applied(None, if row.None? then 0 else 1))
  }

  // INSERT ... ON DUPLICATE KEY UPDATE read_cnt = read_cnt + 1.
  function CountRead(id: int, first: Row): Stmt {
    Stmt(id, (row: Option<Row>) =>
      match row
      case None => Applied(Some(first), 1)
      case Some(r) => Applied(Some(r.(readCnt := r.readCnt + 1)), 2))
  }

  // A double write neither database fails.
  function Both(stmt: Stmt): Update {
    Update(stmt, false, false)
  }

  /** Deleting a row the base scan has passed moves the next unread row under its offset:
      row 2 is never read, and validation finishes with the stores unequal. */
  lemma DeletingAReadRowHidesAnother(c: Setting, r: Row)
    requires c.batch > 0
    ensures var read := ScanRowStep(c, Start(map[1 := r, 2 := r], map[1 := r]));
            var end := Next(c, Next(c, WriteStep(read, Both(Delete(1))), ScanRow), ScanPage);
            && Exposes(read, Both(Delete(1)))
            && Finished(end) && end.base == map[2 := r] && end.target == map[]
  {
    var read := FirstOfTwoRead(c, r);
    var deleted := WriteStep(read, Both(Delete(1)));
    assert deleted.base == map[2 := r] && deleted.target == map[];
    assert deleted.base.Keys == {2} && |{2}| == 1;
    assert NextRow(read, 2) && Differs(read, 2) && !Pending(read, 2);
    hide Rank, Exposes;
    assert Exposes(read, Both(Delete(1))) by {
      ExposesBySkippedRow(read, Both(Delete(1)));
    }
  }

  lemma ExposesBySkippedRow(s: State, w: Update)
    requires w.stmt.id !in WriteStep(s, w).base && SkipsRow(s, w.stmt.id)
    ensures Exposes(s, w)
  {
  }

  lemma FirstOfTwoRead(c: Setting, r: Row) returns (read: State)
    ensures read == ScanRowStep(c, Start(map[1 := r, 2 := r], map[1 := r]))
    ensures read == State(map[1 := r, 2 := r], map[1 := r], 1, false, 0, false, multiset{})
    ensures Rank(read.base.Keys, 1) == 0 && Rank(read.base.Keys, 2) == 1
  {
    var s := Start(map[1 := r, 2 := r], map[1 := r]);
    assert s.base.Keys == {1, 2};
    assert (set x | x in s.base.Keys && x < 1) == {};
    assert (set x | x in s.base.Keys && x < 2) == {1};
    RankInRange(s.base.Keys, 1);
    read := ScanRowStep(c, s);
  }

  /** A write that creates the base's row beside a stray one of the target's, after the
      base scan has ended, leaves a difference neither scan reports. */
  lemma UpsertOverStrayRow(c: Setting, first: Row, stray: Row)
    requires c.batch > 1 && stray.(readCnt := stray.readCnt + 1) != first
    ensures var read := ScanRowStep(c, Start(map[], map[5 := stray]));
            var end := Next(c, WriteStep(read, Both(CountRead(5, first))), ScanPage);
            && Exposes(read, Both(CountRead(5, first)))
            && Finished(end) && Differs(end, 5)
  {
    var read := ScanRowStep(c, Start(map[], map[5 := stray]));
    var after := stray.(readCnt := stray.readCnt + 1);
    var written := WriteStep(read, Both(CountRead(5, first)));
    assert written == State(map[5 := first], map[5 := after], 0, true, 0, false, multiset{});
    assert LeavesUnseen(read, Both(CountRead(5, first)));
    OneRowPage(c, written, 5);
  }

  // The only row of a target, present in the base, ends the page scan without an event.
  lemma OneRowPage(c: Setting, s: State, id: int)
    requires c.batch > 1 && s.target.Keys == {id} && id in s.base && !s.paged && s.pageOffset == 0
    ensures ScanPageStep(c, s) == s.(paged := true)
  {
    var page := PageOfOne(c, s.target, id);
    OnePresent(s.base, id);
    NoEvents(s.base, page, c.dir);
    hide Page, MissingFrom, Present, PageEvents;
  }

  lemma OnePresent(base: Table, id: int)
    requires id in base
    ensures Present(base, [id]) == [id] && MissingFrom(base, [id]) == []
  {
    assert [id][..0] == [];
    assert Present(base, []) == [] && MissingFrom(base, []) == [];
  }

  lemma NoEvents(base: Table, page: seq<int>, dir: Direction)
    requires MissingFrom(base, page) == []
    ensures PageEvents(base, page, dir, false) == []
  {
    hide MissingFrom;
  }

  lemma PageOfOne(c: Setting, target: Table, id: int) returns (page: seq<int>)
    requires c.batch > 1 && target.Keys == {id}
    ensures |target.Keys| == 1 && page == [id] == Page(target, 0, c.batch)
  {
    page := Page(target, 0, c.batch);
    assert |target.Keys| == 1;
    PageExact(target, 0, c.batch);
    assert page[0] in page;
  }

  /** A write the base accepts and the target does not, changing a row already compared and
      with no event pending, always exposes it. */
  lemma LostWriteExposes(s: State, w: Update)
    requires Inv(s) && Accepted(s, w) && w.stmt.id in s.base
    requires w.lost || w.stmt.effect(Lookup(s.target, w.stmt.id)).Rejected?
    requires s.scanned || Rank(s.base.Keys, w.stmt.id) < s.offset
    requires !Pending(s, w.stmt.id)
    requires var row := w.stmt.effect(Lookup(s.base, w.stmt.id)).row;
             row.Some? && row != Lookup(s.base, w.stmt.id)
    ensures Exposes(s, w)
  {
    assert !Hidden(s, w.stmt.id);
    hide Pending, Rank;
  }

  /** A fix that deletes a row the page scan has passed does the same to the target scan:
      of more stray rows than fit a page, fixing the first as soon as it is reported moves
      the first row of the next page where no scan will read it. */
  lemma FixingEarlyHidesARow(c: Setting, target: Table)
    requires 0 < c.batch < |target.Keys|
    ensures |SortedIds(target.Keys)| == |target.Keys|
    ensures var told := ScanPageStep(c, Start(map[], target));
            var first, hidden := SortedIds(target.Keys)[0], SortedIds(target.Keys)[c.batch];
            var e := Event(first, c.dir, BaseMissing);
            e in told.pending && FixExposes(told, e) && Hidden(FixStep(told, e), hidden)
  {
    var first, hidden := FirstPageTold(c, target);
    var told := ScanPageStep(c, Start(map[], target));
    var e := Event(first, c.dir, BaseMissing);
    assert NextStray(told, hidden);
    hide ScanPageStep, Rank, FixStep, Pending;
    assert SkipsStray(told, first);
    assert !Hidden(told, hidden);
    FixHidden(told, e, hidden);
  }

  // The first page tells of its first row, and not of the row after it.
  lemma FirstPageTold(c: Setting, target: Table) returns (first: int, next: int)
    requires 0 < c.batch < |target.Keys|
    ensures |SortedIds(target.Keys)| == |target.Keys|
    ensures first == SortedIds(target.Keys)[0] && next == SortedIds(target.Keys)[c.batch]
    ensures first in target && Rank(target.Keys, first) == 0
    ensures next in target && Rank(target.Keys, next) == c.batch
    ensures var told := ScanPageStep(c, Start(map[], target));
            && told == Start(map[], target).(pageOffset := c.batch, pending := told.pending)
            && Event(first, c.dir, BaseMissing) in told.pending && !Pending(told, next)
  {
    OffsetIsRank(target.Keys, 0);
    OffsetIsRank(target.Keys, c.batch);
    first, next := SortedIds(target.Keys)[0], SortedIds(target.Keys)[c.batch];
    FirstPageEvents(c, target);
    PageTold(c, Start(map[], target), first);
    PageTold(c, Start(map[], target), next);
    hide Page, PageEvents, SortedIds, Rank, ScanPageStep, Pending;
    var s' := ScanPageStep(c, Start(map[], target));
    var events := PageEvents(map[], Page(target, 0, c.batch), c.dir, false);
    PendingGrows(Start(map[], target), s', events, next);
    NothingPending(Start(map[], target), next);
    var e :| e in events && e.id == first;
    assert e == Event(first, c.dir, BaseMissing) && e in s'.pending;
  }

  lemma NothingPending(s: State, id: int)
    requires s.pending == multiset{}
    ensures !Pending(s, id)
  {
  }

  lemma FirstPageEvents(c: Setting, target: Table)
    requires 0 < c.batch < |target.Keys|
    ensures var page := Page(target, 0, c.batch);
            var events := PageEvents(map[], page, c.dir, false);
            && ScanPageStep(c, Start(map[], target)) ==
               Start(map[], target).(pageOffset := c.batch, pending := multiset(events))
            && forall e :: e in events ==> e == Event(e.id, c.dir, BaseMissing)
  {
    var page := Page(target, 0, c.batch);
    PageExact(target, 0, c.batch);
    PageEventsExact(map[], page, c.dir, false);
    NothingPresent(page);
    hide PageEvents, Present, Rank;
  }

  lemma {:induction false} NothingPresent(page: seq<int>)
    ensures Present(map[], page) == []
  {
    if page != [] {
      NothingPresent(page[..|page| - 1]);
    }
  }
}
