/** Interaction counts behind a cache: every answer against what the tables alone would say,
    with the requests of different calls interleaved. */
module InteractiveRepository {
  import opened Tables
  import opened Interactive
  import opened InteractiveCache

  // ---------- Whole calls ----------

  // The flags say which of a call's requests succeed.
  datatype Event =
    | Update(op: Op, dbOk: bool, cacheOk: bool)
    | Fetch(key: Key, hitOk: bool, dbOk: bool, fillOk: bool)
    | Expire(key: Key)

  datatype Reply = Found(row: Counters) | Missing | Failed

  // What a call does to the tables. The cache plays no part.
  function DbNext(db: Db, e: Event): Db {
    if e.Update? && e.dbOk then Exec(db, e.op) else db
  }

  function CacheNext(db: Db, cache: Hashes, e: Event): Hashes {
    match e
    case Update(op, dbOk, cacheOk) => if dbOk && cacheOk then CacheExec(cache, op) else cache
    case Fetch(k, hitOk, dbOk, fillOk) =>
      if hitOk && Present(cache, k) then cache
      else if dbOk && k in db.rows && fillOk then CacheSet(cache, k, db.rows[k])
      else cache
    case Expire(k) => cache - {KeyOf(k)}
  }

  // The answer of Get.
  function Answer(db: Db, cache: Hashes, e: Event): Reply
    requires e.Fetch?
  {
    if e.hitOk && Present(cache, e.key) then Found(Decode(cache[KeyOf(e.key)])) else DbAnswer(db, e)
  }

  // The answer of the tables alone.
  function DbAnswer(db: Db, e: Event): Reply
    requires e.Fetch?
  {
    if !e.dbOk then Failed else if e.key in db.rows then Found(db.rows[e.key]) else Missing
  }

  // ---------- Requests of overlapping calls ----------

  // An update commits and then increments; a fetch that misses reads the row and then sets
  // the entry. Any requests of other calls may come in between.
  datatype Step =
    | Commit(op: Op, ok: bool)
    | Increment(op: Op, ok: bool)
    | ReadRow(call: int, key: Key, ok: bool)
    | SetEntry(call: int, ok: bool)
    | Forget(key: Key)

  // What has taken effect, in order.
  datatype Effect = Committed(op: Op) | Incremented(op: Op)

  // A row read and not yet set, and when it was read; where an entry comes from. Times are
  // lengths of the log.
  datatype Filling = Filling(key: Key, row: Counters, readAt: nat)

  datatype Origin = Origin(readAt: nat, setAt: nat)

  // due holds the increments still to be sent.
  datatype Store = Store(db: Db, cache: Hashes, due: multiset<Op>, fills: map<int, Filling>,
                         origins: map<Key, Origin>, log: seq<Effect>)

  function CommitStep(s: Store, op: Op, ok: bool): Store {
    if !ok then s else s.(db := Exec(s.db, op), due := s.due + multiset{op}, log := s.log + [Committed(op)])
  }

  function IncrementStep(s: Store, op: Op, ok: bool): Store {
    if op !in s.due then s
    else if !ok then s.(due := s.due - multiset{op})
    else s.(due := s.due - multiset{op}, cache := CacheExec(s.cache, op), log := s.log + [Incremented(op)])
  }

  function ReadStep(s: Store, call: int, k: Key, ok: bool): Store {
    if !ok || k !in s.db.rows then s else s.(fills := s.fills[call := Filling(k, s.db.rows[k], |s.log|)])
  }

  function SetStep(s: Store, call: int, ok: bool): Store {
    if call !in s.fills then s
    else if !ok then s.(fills := s.fills - {call})
    else
      var f := s.fills[call];
      s.(fills := s.fills - {call}, cache := CacheSet(s.cache, f.key, f.row),
         origins := s.origins[f.key := Origin(f.readAt, |s.log|)])
  }

  function Next(s: Store, step: Step): Store {
    match step
    case Commit(op, ok) => CommitStep(s, op, ok)
    case Increment(op, ok) => IncrementStep(s, op, ok)
    case ReadRow(call, k, ok) => ReadStep(s, call, k, ok)
    case SetEntry(call, ok) => SetStep(s, call, ok)
    case Forget(k) => s.(cache := s.cache - {KeyOf(k)})
  }

  function After(s: Store, steps: seq<Step>): Store
    decreases |steps|
  {
    if steps == [] then s else After(Next(s, steps[0]), steps[1..])
  }

  // The tables of the same run without any cache.
  function DbAfter(db: Db, steps: seq<Step>): Db
    decreases |steps|
  {
    if steps == [] then db
    else DbAfter(if steps[0].Commit? && steps[0].ok then Exec(db, steps[0].op) else db, steps[1..])
  }

  // An empty cache in front of any tables.
  function Start(db: Db): Store {
    Store(db, map[], multiset{}, map[], map[], [])
  }

  // ---------- The ledger of an entry ----------

  function Add(c: Counters, d: Counters): Counters {
    Counters(c.readCnt + d.readCnt, c.likeCnt + d.likeCnt, c.collectCnt + d.collectCnt)
  }

  function Delta(op: Op): Counters {
    Bump(ZERO, op)
  }

  // The updates of one article committed since a time, field by field.
  function CommittedSince(log: seq<Effect>, from: nat, k: Key): Counters {
    if |log| <= from then ZERO
    else
      var rest, last := CommittedSince(log[..|log| - 1], from, k), log[|log| - 1];
      if last.Committed? && last.op.key == k then Add(rest, Delta(last.op)) else rest
  }

  // The increments of its entry applied since a time.
  function IncrementedSince(log: seq<Effect>, from: nat, k: Key): Counters {
    if |log| <= from then ZERO
    else
      var rest, last := IncrementedSince(log[..|log| - 1], from, k), log[|log| - 1];
      if last.Incremented? && last.op.key == k then Add(rest, Delta(last.op)) else rest
  }

  // What the row has gained on the entry, by what happened since the entry was read and set.
  ghost predicate Explained(k: Key, row: Counters, entry: Counters, o: Origin, log: seq<Effect>) {
    && o.readAt <= o.setAt <= |log|
    && Add(row, IncrementedSince(log, o.setAt, k)) == Add(entry, CommittedSince(log, o.readAt, k))
  }

  // A cached article has a row, and an entry its log explains.
  ghost predicate Ledger(s: Store, k: Key) {
    Present(s.cache, k) ==>
      && k in s.db.rows && k in s.origins
      && Explained(k, s.db.rows[k], Decode(s.cache[KeyOf(k)]), s.origins[k], s.log)
  }

  // The same for a row read and not yet set.
  ghost predicate FillLedger(s: Store, call: int) {
    call in s.fills ==>
      var f := s.fills[call];
      && f.key in s.db.rows && f.readAt <= |s.log|
      && s.db.rows[f.key] == Add(f.row, CommittedSince(s.log, f.readAt, f.key))
  }

  ghost predicate Inv(s: Store) {
    (forall k :: Ledger(s, k)) && (forall call :: FillLedger(s, call))
  }

  lemma SinceAppend(log: seq<Effect>, e: Effect, from: nat, k: Key)
    requires from <= |log|
    ensures CommittedSince(log + [e], from, k) ==
            if e.Committed? && e.op.key == k then Add(CommittedSince(log, from, k), Delta(e.op))
            else CommittedSince(log, from, k)
    ensures IncrementedSince(log + [e], from, k) ==
            if e.Incremented? && e.op.key == k then Add(IncrementedSince(log, from, k), Delta(e.op))
            else IncrementedSince(log, from, k)
  {
    assert (log + [e])[..|log|] == log;
  }

  lemma BumpIsAdd(c: Counters, op: Op)
    ensures Bump(c, op) == Add(c, Delta(op)) && Delta(op) != ZERO
  {
  }

  lemma ExecAt(db: Db, op: Op, k: Key)
    requires k in db.rows
    ensures k in Exec(db, op).rows
    ensures Exec(db, op).rows[k] == if k == op.key then Bump(db.rows[k], op) else db.rows[k]
  {
  }

  lemma PresentIsGet(c: Hashes, k: Key)
    ensures Present(c, k) <==> CacheGet(c, k).Some?
    ensures Present(c, k) ==> KeyOf(k) in c && CacheGet(c, k).value == Decode(c[KeyOf(k)])
  {
  }

  lemma CommitKeeps(s: Store, op: Op, k: Key)
    requires Ledger(s, k)
    ensures Ledger(CommitStep(s, op, true), k)
  {
    hide Present, CacheGet, Exec, CommittedSince, IncrementedSince, Bump, Delta;
    if Present(s.cache, k) {
      ExecAt(s.db, op, k);
      SinceAppend(s.log, Committed(op), s.origins[k].readAt, k);
      SinceAppend(s.log, Committed(op), s.origins[k].setAt, k);
      BumpIsAdd(s.db.rows[k], op);
    }
  }

  lemma CommitKeepsFill(s: Store, op: Op, call: int)
    requires FillLedger(s, call)
    ensures FillLedger(CommitStep(s, op, true), call)
  {
    hide Exec, CommittedSince, Bump, Delta;
    if call in s.fills {
      var f := s.fills[call];
      ExecAt(s.db, op, f.key);
      SinceAppend(s.log, Committed(op), f.readAt, f.key);
      BumpIsAdd(s.db.rows[f.key], op);
    }
  }

  lemma IncrementKeeps(s: Store, op: Op, k: Key)
    requires Ledger(s, k) && op in s.due
    ensures Ledger(IncrementStep(s, op, true), k)
  {
    hide Present, CacheGet, CacheExec, CommittedSince, IncrementedSince, Bump, Delta;
    CacheExecGet(s.cache, op, k);
    PresentIsGet(s.cache, k);
    PresentIsGet(CacheExec(s.cache, op), k);
    if Present(s.cache, k) {
      SinceAppend(s.log, Incremented(op), s.origins[k].readAt, k);
      SinceAppend(s.log, Incremented(op), s.origins[k].setAt, k);
      BumpIsAdd(CacheGet(s.cache, k).value, op);
    }
  }

  lemma IncrementKeepsFill(s: Store, op: Op, call: int)
    requires FillLedger(s, call) && op in s.due
    ensures FillLedger(IncrementStep(s, op, true), call)
  {
    hide CacheExec, CommittedSince, Delta;
    if call in s.fills {
      SinceAppend(s.log, Incremented(op), s.fills[call].readAt, s.fills[call].key);
    }
  }

  lemma SetKeeps(s: Store, call: int, k: Key)
    requires Ledger(s, k) && FillLedger(s, call) && call in s.fills
    ensures Ledger(SetStep(s, call, true), k)
  {
    hide Present, CacheSet, Explained, Decode, KeyOf, CommittedSince, IncrementedSince, Add;
    SetShows(s, s.fills[call], k);
    if k == s.fills[call].key {
      JustSet(s, s.fills[call]);
    }
  }

  // After a set, its own entry shows the row read, and every other what it showed.
  lemma SetShows(s: Store, f: Filling, k: Key)
    ensures var c := CacheSet(s.cache, f.key, f.row);
            && (k == f.key ==> Present(c, k) && Decode(c[KeyOf(k)]) == f.row)
            && (k != f.key ==> (Present(c, k) <==> Present(s.cache, k))
                               && (Present(c, k) ==> Decode(c[KeyOf(k)]) == Decode(s.cache[KeyOf(k)])))
  {
    hide CacheSet, Decode, KeyOf;
    SetGet(s.cache, f.key, f.row, k);
    PresentIsGet(s.cache, k);
    PresentIsGet(CacheSet(s.cache, f.key, f.row), k);
  }

  lemma JustSet(s: Store, f: Filling)
    requires f.key in s.db.rows && f.readAt <= |s.log|
    requires s.db.rows[f.key] == Add(f.row, CommittedSince(s.log, f.readAt, f.key))
    ensures Explained(f.key, s.db.rows[f.key], f.row, Origin(f.readAt, |s.log|), s.log)
  {
    NothingSince(s.log, f.key);
    hide CommittedSince, IncrementedSince;
  }

  lemma ForgetKeeps(s: Store, gone: Key, k: Key)
    requires Ledger(s, k)
    ensures Ledger(s.(cache := s.cache - {KeyOf(gone)}), k)
  {
    hide Present, CacheGet, KeyOf, CommittedSince, IncrementedSince;
    ExpireGet(s.cache, gone, k);
    PresentIsGet(s.cache, k);
    PresentIsGet(s.cache - {KeyOf(gone)}, k);
  }

  lemma SameLedger(s: Store, s': Store, k: Key)
    requires Ledger(s, k) && s' == s.(due := s'.due, fills := s'.fills)
    ensures Ledger(s', k)
  {
    hide Present, CacheGet, CommittedSince, IncrementedSince;
  }

  lemma StepKeepsEntry(s: Store, step: Step, k: Key)
    requires Inv(s)
    ensures Ledger(Next(s, step), k)
  {
    assert Ledger(s, k);
    hide Inv, Ledger, FillLedger, CacheExec, CacheSet, KeyOf, Exec;
    match step {
      case Commit(op, ok) => if ok { CommitKeeps(s, op, k); }
      case Increment(op, ok) =>
        if op in s.due && ok {
          IncrementKeeps(s, op, k);
        } else {
          SameLedger(s, Next(s, step), k);
        }
      case ReadRow(_, _, _) => SameLedger(s, Next(s, step), k);
      case SetEntry(call, ok) =>
        if call in s.fills && ok {
          FillOf(s, call);
          SetKeeps(s, call, k);
        } else {
          SameLedger(s, Next(s, step), k);
        }
      case Forget(gone) => ForgetKeeps(s, gone, k);
    }
  }

  lemma FillOf(s: Store, call: int)
    requires Inv(s)
    ensures FillLedger(s, call)
  {
  }

  lemma StepKeepsFill(s: Store, step: Step, call: int)
    requires FillLedger(s, call)
    ensures FillLedger(Next(s, step), call)
  {
    hide CacheExec, CacheSet, KeyOf, Exec, CommittedSince;
    match step {
      case Commit(op, ok) => if ok { CommitKeepsFill(s, op, call); }
      case Increment(op, ok) => if op in s.due && ok { IncrementKeepsFill(s, op, call); }
      case ReadRow(other, k, ok) => NothingSince(s.log, k);
      case _ =>
    }
  }

  lemma NothingSince(log: seq<Effect>, k: Key)
    ensures CommittedSince(log, |log|, k) == ZERO && IncrementedSince(log, |log|, k) == ZERO
  {
  }

  lemma StepKeeps(s: Store, step: Step)
    requires Inv(s)
    ensures Inv(Next(s, step))
  {
    hide Ledger, FillLedger, Next;
    forall k ensures Ledger(Next(s, step), k) {
      StepKeepsEntry(s, step, k);
    }
    forall call ensures FillLedger(Next(s, step), call) {
      StepKeepsFill(s, step, call);
    }
  }

  /** In every interleaving of calls, failures and expiries: what an entry's row has on it is
      the updates committed since the row was read less the increments applied since the entry
      was set. */
  lemma {:induction false} LedgerHolds(s: Store, steps: seq<Step>)
    requires Inv(s)
    ensures Inv(After(s, steps))
    ensures After(s, steps).db == DbAfter(s.db, steps)
    decreases |steps|
  {
    if steps != [] {
      hide Inv;
      StepKeeps(s, steps[0]);
      CacheLeavesTables(s, steps[0]);
      hide Next, Exec;
      LedgerHolds(Next(s, steps[0]), steps[1..]);
    }
  }

  lemma CacheLeavesTables(s: Store, step: Step)
    ensures Next(s, step).db == if step.Commit? && step.ok then Exec(s.db, step.op) else s.db
  {
    hide Exec, CacheExec, CacheSet, KeyOf;
  }

  /** Every answer at every point of every interleaving, in terms of the tables of the same run
      without a cache: a miss answers as they do; a hit is right if and only if the updates
      committed since its row was read are, in total, the increments applied since it was set. */
  lemma CachedAnswers(db: Db, steps: seq<Step>, e: Event)
    requires e.Fetch?
    ensures var s, now := After(Start(db), steps), DbAfter(db, steps);
            var reply := Answer(s.db, s.cache, e);
            if e.hitOk && Present(s.cache, e.key)
            then && reply.Found? && e.key in now.rows && e.key in s.origins
                 && (reply == Found(now.rows[e.key]) <==>
                     CommittedSince(s.log, s.origins[e.key].readAt, e.key) ==
                     IncrementedSince(s.log, s.origins[e.key].setAt, e.key))
            else reply == DbAnswer(now, e)
  {
    LedgerHolds(Start(db), steps);
    var s := After(Start(db), steps);
    assert Ledger(s, e.key);
    hide After, Start, CommittedSince, IncrementedSince, Ledger;
    if Present(s.cache, e.key) {
      RightByLedger(s, e.key);
    }
  }

  /** An entry set from a row nothing has updated since it was read is right. */
  lemma RefillHeals(s: Store, call: int)
    requires Inv(s) && call in s.fills
    ensures var f, s' := s.fills[call], SetStep(s, call, true);
            f.key in s.db.rows && (CacheGet(s'.cache, f.key) == Some(s.db.rows[f.key]) <==>
                                   CommittedSince(s.log, f.readAt, f.key) == ZERO)
  {
    FillOf(s, call);
    var f := s.fills[call];
    SetGet(s.cache, f.key, f.row, f.key);
    hide CacheGet, CacheSet, CommittedSince, Ledger, Inv, Add;
    AddCancels(s.db.rows[f.key], ZERO, f.row, CommittedSince(s.log, f.readAt, f.key));
  }

  /** After an expiry its article is absent, and every other entry is what it was. */
  lemma ForgetMeans(s: Store, k: Key, l: Key)
    ensures var s' := Next(s, Forget(k));
            s'.db == s.db && CacheGet(s'.cache, l) == if l == k then None else CacheGet(s.cache, l)
  {
    hide CacheGet, KeyOf;
    ExpireGet(s.cache, k, l);
  }

  // ---------- Overlaps that leave a wrong entry ----------

  // Whether an entry shows something other than the row.
  ghost predicate Wrong(s: Store, k: Key) {
    Present(s.cache, k) && k in s.db.rows && CacheGet(s.cache, k) != Some(s.db.rows[k])
  }

  lemma AddCancels(row: Counters, incremented: Counters, got: Counters, committed: Counters)
    requires Add(row, incremented) == Add(got, committed)
    ensures got == row <==> committed == incremented
  {
  }

  // An entry is right exactly when its two sums agree.
  lemma RightByLedger(s: Store, k: Key)
    requires Ledger(s, k) && Present(s.cache, k)
    ensures k in s.db.rows && k in s.origins && CacheGet(s.cache, k).Some?
    ensures CacheGet(s.cache, k).value == s.db.rows[k] <==>
            CommittedSince(s.log, s.origins[k].readAt, k) == IncrementedSince(s.log, s.origins[k].setAt, k)
  {
    PresentIsGet(s.cache, k);
    hide Present, CacheGet, CommittedSince, IncrementedSince, Add;
    var o := s.origins[k];
    AddCancels(s.db.rows[k], IncrementedSince(s.log, o.setAt, k), CacheGet(s.cache, k).value,
               CommittedSince(s.log, o.readAt, k));
  }

  lemma WrongByLedger(s: Store, k: Key)
    requires Inv(s) && Present(s.cache, k) && k in s.origins
    ensures Wrong(s, k) <==>
            CommittedSince(s.log, s.origins[k].readAt, k) != IncrementedSince(s.log, s.origins[k].setAt, k)
  {
    assert Ledger(s, k);
    RightByLedger(s, k);
    hide Present, CacheGet, CommittedSince, IncrementedSince, Ledger;
  }

  lemma RunOfOne(s: Store, a: Step)
    ensures After(s, [a]) == Next(s, a)
  {
    hide Next;
    assert [a][1..] == [];
  }

  lemma RunOfTwo(s: Store, a: Step, b: Step)
    ensures After(s, [a, b]) == Next(Next(s, a), b)
  {
    hide Next;
    assert [a, b][1..] == [b];
    RunOfOne(Next(s, a), b);
  }

  lemma RunOfFour(s: Store, a: Step, b: Step, c: Step, d: Step)
    ensures After(s, [a, b, c, d]) == Next(Next(Next(Next(s, a), b), c), d)
  {
    hide Next;
    assert [a, b, c, d][1..] == [b, c, d] && [b, c, d][1..] == [c, d];
    RunOfTwo(Next(Next(s, a), b), c, d);
  }

  /** From any reachable state, a fetch whose row is read before an update and set after it
      leaves a wrong entry: one commit since the read, no increment since the set. */
  lemma FillRace(s: Store, op: Op, call: int)
    requires Inv(s) && op.key in s.db.rows
    ensures Wrong(After(s, [ReadRow(call, op.key, true), Commit(op, true), Increment(op, true), SetEntry(call, true)]),
                  op.key)
  {
    hide *;
    var steps := [ReadRow(call, op.key, true), Commit(op, true), Increment(op, true), SetEntry(call, true)];
    LedgerHolds(s, steps);
    FillRaceRun(s, op, call, steps);
    TwoSince(s.log, Committed(op), Incremented(op), op.key);
    NothingSince(s.log + [Committed(op)] + [Incremented(op)], op.key);
    BumpIsAdd(ZERO, op);
    WrongByLedger(After(s, steps), op.key);
  }

  lemma FillRaceRun(s: Store, op: Op, call: int, steps: seq<Step>)
    requires op.key in s.db.rows
    requires steps == [ReadRow(call, op.key, true), Commit(op, true), Increment(op, true), SetEntry(call, true)]
    ensures var end := After(s, steps);
            && Present(end.cache, op.key) && op.key in end.origins
            && end.origins[op.key] == Origin(|s.log|, |end.log|)
            && end.log == s.log + [Committed(op)] + [Incremented(op)]
  {
    hide After, CacheExec, CacheSet, Present, Exec;
    RunOfFour(s, steps[0], steps[1], steps[2], steps[3]);
    var updated := IncrementStep(CommitStep(ReadStep(s, call, op.key, true), op, true), op, true);
    SetPresent(updated, call);
    assert updated.log == s.log + [Committed(op)] + [Incremented(op)];
    assert updated.fills[call] == Filling(op.key, s.db.rows[op.key], |s.log|);
    assert After(s, steps) == SetStep(updated, call, true);
  }

  lemma SetPresent(s: Store, call: int)
    requires call in s.fills
    ensures Present(SetStep(s, call, true).cache, s.fills[call].key)
  {
    SetGet(s.cache, s.fills[call].key, s.fills[call].row, s.fills[call].key);
    PresentIsGet(SetStep(s, call, true).cache, s.fills[call].key);
    hide Present, CacheGet, CacheSet;
  }

  // The sums over two effects after a log.
  lemma TwoSince(log: seq<Effect>, a: Effect, b: Effect, k: Key)
    requires a.op.key == k && b.op.key == k && a.Committed? && b.Incremented?
    ensures CommittedSince(log + [a] + [b], |log|, k) == Delta(a.op)
  {
    NothingSince(log, k);
    SinceAppend(log, a, |log|, k);
    SinceAppend(log + [a], b, |log|, k);
    hide CommittedSince;
  }

  /** So does a fetch read and set between an update's commit and its increment: no commit
      since the read, one increment since the set. */
  lemma IncrementRace(s: Store, op: Op, call: int)
    requires Inv(s)
    requires op.key in Exec(s.db, op).rows
    ensures Wrong(After(s, [Commit(op, true), ReadRow(call, op.key, true), SetEntry(call, true), Increment(op, true)]),
                  op.key)
  {
    hide *;
    var steps := [Commit(op, true), ReadRow(call, op.key, true), SetEntry(call, true), Increment(op, true)];
    LedgerHolds(s, steps);
    var log := IncrementRaceRun(s, op, call, steps);
    OneSince(log, op);
    WrongByLedger(After(s, steps), op.key);
  }

  lemma IncrementRaceRun(s: Store, op: Op, call: int, steps: seq<Step>) returns (log: seq<Effect>)
    requires op.key in Exec(s.db, op).rows
    requires steps == [Commit(op, true), ReadRow(call, op.key, true), SetEntry(call, true), Increment(op, true)]
    ensures var end := After(s, steps);
            && Present(end.cache, op.key) && op.key in end.origins
            && end.origins[op.key] == Origin(|log|, |log|) && end.log == log + [Incremented(op)]
  {
    hide After, CacheExec, CacheSet, Present, Exec;
    RunOfFour(s, steps[0], steps[1], steps[2], steps[3]);
    var read := ReadStep(CommitStep(s, op, true), call, op.key, true);
    SetPresent(read, call);
    StillPresent(SetStep(read, call, true), op);
    log := read.log;
  }

  lemma StillPresent(s: Store, op: Op)
    requires Present(s.cache, op.key)
    ensures Present(CacheExec(s.cache, op), op.key)
  {
    CacheExecGet(s.cache, op, op.key);
    PresentIsGet(s.cache, op.key);
    PresentIsGet(CacheExec(s.cache, op), op.key);
    hide CacheExec, Present, CacheGet;
  }

  // The sums over one increment after a log.
  lemma OneSince(log: seq<Effect>, op: Op)
    ensures CommittedSince(log + [Incremented(op)], |log|, op.key) !=
            IncrementedSince(log + [Incremented(op)], |log|, op.key)
  {
    NothingSince(log, op.key);
    SinceAppend(log, Incremented(op), |log|, op.key);
    BumpIsAdd(ZERO, op);
    hide CommittedSince, IncrementedSince;
  }

  // ---------- Calls one after another ----------

  // The requests of a whole call.
  function Requests(s: Store, e: Event): seq<Step> {
    match e
    case Update(op, dbOk, cacheOk) => [Commit(op, dbOk), Increment(op, cacheOk)]
    case Fetch(k, hitOk, dbOk, fillOk) =>
      if hitOk && Present(s.cache, k) then [] else [ReadRow(0, k, dbOk), SetEntry(0, fillOk)]
    case Expire(k) => [Forget(k)]
  }

  ghost predicate Idle(s: Store) {
    s.due == multiset{} && s.fills == map[]
  }

  /** Made by itself, a call does to the tables and the cache what its method does. */
  lemma CallIsRequests(s: Store, e: Event)
    requires Idle(s)
    ensures var s' := After(s, Requests(s, e));
            Idle(s') && s'.db == DbNext(s.db, e) && s'.cache == CacheNext(s.db, s.cache, e)
  {
    hide After, Idle;
    match e {
      case Update(op, dbOk, cacheOk) =>
        RunOfTwo(s, Commit(op, dbOk), Increment(op, cacheOk));
        UpdateIsRequests(s, op, dbOk, cacheOk);
      case Fetch(k, hitOk, dbOk, fillOk) =>
        RunOfTwo(s, ReadRow(0, k, dbOk), SetEntry(0, fillOk));
        FetchIsRequests(s, k, dbOk, fillOk);
        RunOfNone(s);
      case Expire(k) =>
        RunOfOne(s, Forget(k));
        ForgetStaysIdle(s, k);
    }
  }

  lemma RunOfNone(s: Store)
    ensures After(s, []) == s
  {
  }

  lemma ForgetStaysIdle(s: Store, k: Key)
    requires Idle(s)
    ensures Idle(s.(cache := s.cache - {KeyOf(k)}))
  {
    hide KeyOf;
  }

  lemma UpdateIsRequests(s: Store, op: Op, dbOk: bool, cacheOk: bool)
    requires Idle(s)
    ensures var s' := Next(Next(s, Commit(op, dbOk)), Increment(op, cacheOk));
            Idle(s') && s'.db == DbNext(s.db, Update(op, dbOk, cacheOk))
            && s'.cache == CacheNext(s.db, s.cache, Update(op, dbOk, cacheOk))
  {
    hide CacheExec, Exec;
  }

  lemma FetchIsRequests(s: Store, k: Key, dbOk: bool, fillOk: bool)
    requires Idle(s)
    ensures var s' := Next(Next(s, ReadRow(0, k, dbOk)), SetEntry(0, fillOk));
            Idle(s') && s'.db == s.db
            && s'.cache == if dbOk && k in s.db.rows && fillOk then CacheSet(s.cache, k, s.db.rows[k]) else s.cache
  {
    hide CacheSet;
    if dbOk && k in s.db.rows {
      assert s.fills[0 := Filling(k, s.db.rows[k], |s.log|)] - {0} == map[];
    }
  }

  function AfterCalls(s: Store, events: seq<Event>, n: nat): Store
    requires n <= |events|
  {
    if n == 0 then s else
    var before := AfterCalls(s, events, n - 1);
    After(before, Requests(before, events[n - 1]))
  }

  function DbAfterCalls(db: Db, events: seq<Event>, n: nat): Db
    requires n <= |events|
  {
    if n == 0 then db else DbNext(DbAfterCalls(db, events, n - 1), events[n - 1])
  }

  // No update of k reaches the tables but not the cache.
  ghost predicate NoneLost(events: seq<Event>, n: nat, k: Key)
    requires n <= |events|
  {
    forall i :: 0 <= i < n && events[i].Update? && events[i].op.key == k && events[i].dbOk ==> events[i].cacheOk
  }

  // A cached article's commits since its read are its increments since its set.
  ghost predicate Balanced(s: Store, k: Key) {
    Present(s.cache, k) && k in s.origins ==>
      && s.origins[k].readAt <= s.origins[k].setAt <= |s.log|
      && CommittedSince(s.log, s.origins[k].readAt, k) == IncrementedSince(s.log, s.origins[k].setAt, k)
  }

  lemma UpdateBalances(s: Store, e: Event, k: Key)
    requires Idle(s) && Balanced(s, k) && e.Update?
    requires e.op.key == k && e.dbOk ==> e.cacheOk
    ensures Balanced(After(s, Requests(s, e)), k)
  {
    RunOfTwo(s, Commit(e.op, e.dbOk), Increment(e.op, e.cacheOk));
    hide After, Exec, CacheExec, Balanced;
    assert e.op in s.due + multiset{e.op};
    if e.dbOk && e.cacheOk {
      BothLogged(s, After(s, Requests(s, e)), e.op, k);
    } else if e.dbOk {
      CommitElsewhere(s, After(s, Requests(s, e)), e.op, k);
    }
  }

  lemma BothLogged(s: Store, s': Store, op: Op, k: Key)
    requires Balanced(s, k) && s'.cache == CacheExec(s.cache, op) && s'.origins == s.origins
    requires s'.log == s.log + [Committed(op)] + [Incremented(op)]
    ensures Balanced(s', k)
  {
    CacheExecGet(s.cache, op, k);
    PresentIsGet(s.cache, k);
    PresentIsGet(s'.cache, k);
    hide CacheExec, CacheGet, Present, CommittedSince, IncrementedSince, Delta, Add;
    if Present(s.cache, k) && k in s.origins {
      var o, log := s.origins[k], s.log + [Committed(op)];
      SinceAppend(s.log, Committed(op), o.readAt, k);
      SinceAppend(s.log, Committed(op), o.setAt, k);
      SinceAppend(log, Incremented(op), o.readAt, k);
      SinceAppend(log, Incremented(op), o.setAt, k);
    }
  }

  lemma CommitElsewhere(s: Store, s': Store, op: Op, k: Key)
    requires Balanced(s, k) && s'.cache == s.cache && s'.origins == s.origins && op.key != k
    requires s'.log == s.log + [Committed(op)]
    ensures Balanced(s', k)
  {
    hide Present, CommittedSince, IncrementedSince, Delta, Add;
    if Present(s.cache, k) && k in s.origins {
      var o := s.origins[k];
      SinceAppend(s.log, Committed(op), o.readAt, k);
      SinceAppend(s.log, Committed(op), o.setAt, k);
    }
  }

  lemma FetchBalances(s: Store, e: Event, k: Key)
    requires Idle(s) && Balanced(s, k) && e.Fetch?
    ensures Balanced(After(s, Requests(s, e)), k)
  {
    RunOfTwo(s, ReadRow(0, e.key, e.dbOk), SetEntry(0, e.fillOk));
    NothingSince(s.log, k);
    if e.key in s.db.rows {
      SetGet(s.cache, e.key, s.db.rows[e.key], k);
      PresentIsGet(CacheSet(s.cache, e.key, s.db.rows[e.key]), k);
    }
    PresentIsGet(s.cache, k);
    hide CacheSet, CacheGet, Present, CommittedSince, IncrementedSince;
  }

  lemma ExpireBalances(s: Store, e: Event, k: Key)
    requires Balanced(s, k) && e.Expire?
    ensures Balanced(After(s, Requests(s, e)), k)
  {
    assert [Forget(e.key)][1..] == [];
    ExpireGet(s.cache, e.key, k);
    PresentIsGet(s.cache, k);
    PresentIsGet(s.cache - {KeyOf(e.key)}, k);
    hide CacheGet, Present, KeyOf, CommittedSince, IncrementedSince;
  }

  lemma {:induction false} CallsBalance(s: Store, events: seq<Event>, n: nat, k: Key)
    requires n <= |events| && Idle(s) && Inv(s) && Balanced(s, k) && NoneLost(events, n, k)
    ensures var s' := AfterCalls(s, events, n);
            Idle(s') && Inv(s') && Balanced(s', k) && s'.db == DbAfterCalls(s.db, events, n)
  {
    if n > 0 {
      CallsBalance(s, events, n - 1, k);
      var before, e := AfterCalls(s, events, n - 1), events[n - 1];
      CallIsRequests(before, e);
      LedgerHolds(before, Requests(before, e));
      hide After, Requests, Inv, Balanced, Idle, DbNext, CacheNext;
      match e {
        case Update(_, _, _) => UpdateBalances(before, e, k);
        case Fetch(_, _, _, _) => FetchBalances(before, e, k);
        case Expire(_) => ExpireBalances(before, e, k);
      }
    }
  }

  /** With calls one after another and no cache increment of an article failing, its every
      answer is the one the tables alone give; a hit hides an outage of the tables but never
      shows another row. */
  lemma CacheTransparent(db: Db, events: seq<Event>, i: nat)
    requires i < |events| && events[i].Fetch? && NoneLost(events, i, events[i].key)
    ensures var s, e, now := AfterCalls(Start(db), events, i), events[i], DbAfterCalls(db, events, i);
            var reply := Answer(s.db, s.cache, e);
            && (e.dbOk ==> reply == DbAnswer(now, e))
            && (!e.dbOk && !reply.Failed? ==> e.key in now.rows && reply == Found(now.rows[e.key]))
  {
    CallsBalance(Start(db), events, i, events[i].key);
    var s, k := AfterCalls(Start(db), events, i), events[i].key;
    assert Ledger(s, k);
    hide AfterCalls, DbAfterCalls, CommittedSince, IncrementedSince, Ledger, Inv;
    if Present(s.cache, k) {
      RightByLedger(s, k);
    }
  }

  // ---------- The repository ----------

  class CachedInteractiveRepository {
    const dao: GORMInteractiveDAO
    const cache: InteractiveRedisCache

    constructor (dao: GORMInteractiveDAO, cache: InteractiveRedisCache)
      ensures this.dao == dao && this.cache == cache
    {
      this.dao, this.cache := dao, cache;
    }

    // Both stores after one event.
    twostate predicate Stepped(e: Event)
      reads dao, cache
    {
      && dao.Data() == DbNext(old(dao.Data()), e)
      && cache.hashes == CacheNext(old(dao.Data()), old(cache.hashes), e)
    }

    // A failed cache increment is reported although the tables have changed.
    method IncrReadCnt(biz: string, id: int, stmtOk: bool, redisOk: bool) returns (ok: bool)
      modifies dao, cache
      ensures ok <==> stmtOk && redisOk
      ensures Stepped(Update(Read(Key(biz, id)), stmtOk, redisOk))
      ensures dao.Data() ==
              if stmtOk then Exec(old(dao.Data()), Read(Key(biz, id)))
              else old(dao.Data())
      ensures cache.hashes ==
              if stmtOk && redisOk
              then IncrIfPresent(old(cache.hashes), Key(biz, id), READ_CNT, 1)
              else old(cache.hashes)
    {
      ok := dao.IncrReadCnt(biz, id, stmtOk);
      if !ok {
        return;
      }
      ok := cache.Incr(biz, id, READ_CNT, 1, redisOk);
    }

    method IncrLike(biz: string, id: int, uid: int, recordOk: bool, counterOk: bool, redisOk: bool) returns (ok: bool)
      modifies dao, cache
      ensures ok <==> recordOk && counterOk && redisOk
      ensures Stepped(Update(Like(Key(biz, id), uid), recordOk && counterOk, redisOk))
      ensures dao.Data() ==
              if recordOk && counterOk then Exec(old(dao.Data()), Like(Key(biz, id), uid))
              else old(dao.Data())
      ensures cache.hashes ==
              if recordOk && counterOk && redisOk
              then IncrIfPresent(old(cache.hashes), Key(biz, id), LIKE_CNT, 1)
              else old(cache.hashes)
    {
      ok := dao.InsertLikeInfo(biz, id, uid, recordOk, counterOk);
      if !ok {
        return;
      }
      ok := cache.Incr(biz, id, LIKE_CNT, 1, redisOk);
    }

    method DecrLike(biz: string, id: int, uid: int, recordOk: bool, counterOk: bool, redisOk: bool) returns (ok: bool)
      modifies dao, cache
      ensures ok <==> recordOk && counterOk && redisOk
      ensures Stepped(Update(Cancel(Key(biz, id), uid), recordOk && counterOk, redisOk))
      ensures dao.Data() ==
              if recordOk && counterOk then Exec(old(dao.Data()), Cancel(Key(biz, id), uid))
              else old(dao.Data())
      ensures cache.hashes ==
              if recordOk && counterOk && redisOk
              then IncrIfPresent(old(cache.hashes), Key(biz, id), LIKE_CNT, -1)
              else old(cache.hashes)
    {
      ok := dao.DeleteLikeInfo(biz, id, uid, recordOk, counterOk);
      if !ok {
        return;
      }
      ok := cache.Incr(biz, id, LIKE_CNT, -1, redisOk);
    }

    method AddCollectionItem(biz: string, id: int, cid: int, uid: int, recordOk: bool, counterOk: bool, redisOk: bool)
        returns (ok: bool)
      modifies dao, cache
      ensures ok <==> recordOk && counterOk && redisOk
      ensures Stepped(Update(Collect(Key(biz, id), uid, cid), recordOk && counterOk, redisOk))
      ensures dao.Data() ==
              if recordOk && counterOk then Exec(old(dao.Data()), Collect(Key(biz, id), uid, cid))
              else old(dao.Data())
      ensures cache.hashes ==
              if recordOk && counterOk && redisOk
              then IncrIfPresent(old(cache.hashes), Key(biz, id), COLLECT_CNT, 1)
              else old(cache.hashes)
    {
      ok := dao.InsertCollectionBiz(biz, id, uid, cid, recordOk, counterOk);
      if !ok {
        return;
      }
      ok := cache.Incr(biz, id, COLLECT_CNT, 1, redisOk);
    }

    // A failed fill is only logged.
    method Get(biz: string, id: int, hitOk: bool, dbOk: bool, fillOk: bool, expireOk: bool) returns (reply: Reply)
      modifies cache
      ensures reply == Answer(dao.Data(), old(cache.hashes), Fetch(Key(biz, id), hitOk, dbOk, fillOk))
      ensures Stepped(Fetch(Key(biz, id), hitOk, dbOk, fillOk))
      ensures hitOk && CacheGet(old(cache.hashes), Key(biz, id)).Some? ==>
        reply == Found(CacheGet(old(cache.hashes), Key(biz, id)).value) && cache.hashes == old(cache.hashes)
      ensures !(hitOk && CacheGet(old(cache.hashes), Key(biz, id)).Some?) ==>
        && reply == (if !dbOk then Failed
                     else if Key(biz, id) in dao.rows then Found(dao.rows[Key(biz, id)]) else Missing)
        && (reply.Found? && fillOk ==> CacheGet(cache.hashes, Key(biz, id)) == Some(reply.row))
        && (!reply.Found? || !fillOk ==> cache.hashes == old(cache.hashes))
    {
      PresentIsGet(cache.hashes, Key(biz, id));
      var hit := cache.Get(biz, id, hitOk);
      if hit.Some? {
        return Found(hit.value);
      }
      var row := dao.Get(biz, id, dbOk);
      match row {
        case QueryFailed => return Failed;
        case NotFound => return Missing;
        case Got(value) =>
          SetGet(cache.hashes, Key(biz, id), value, Key(biz, id));
          var _ := cache.Set(biz, id, value, fillOk, expireOk);
          reply := Found(value);
      }
    }

    // Not found means not liked; any other error is passed on.
    method Liked(biz: string, id: int, uid: int, dbOk: bool) returns (liked: Option<bool>)
      ensures liked == if dbOk then Some(uid in Likers(dao.Data(), Key(biz, id))) else None
    {
      var r := dao.GetLikeInfo(biz, id, uid, dbOk);
      match r {
        case Got(_) => liked := Some(true);
        case NotFound => liked := Some(false);
        case QueryFailed => liked := None;
      }
    }
  }
}
