/** The double-write connection pool: one of two databases is primary, the other
    mirrors its successful writes on a best-effort basis. */
module ConnPool {
  import opened Tables

  datatype Pattern = SrcOnly | SrcFirst | DstFirst | DstOnly | Unknown(name: string)

  datatype Side = Src | Dst

  function Other(s: Side): Side {
    if s == Src then Dst else Src
  }

  datatype Pair<T> = Pair(src: T, dst: T) {
    function Get(s: Side): T {
      if s == Src then src else dst
    }

    function Put(s: Side, v: T): Pair<T> {
      if s == Src then Pair(v, dst) else Pair(src, v)
    }
  }

  // The side whose answers callers see, and whether the other side is written too.
  function Primary(p: Pattern): Side {
    if p == DstFirst || p == DstOnly then Dst else Src
  }

  predicate Mirrors(p: Pattern) {
    p == SrcFirst || p == DstFirst
  }

  // ---------- One database ----------

  // Committed rows, and the committed statements that produced them.
  datatype Db = Db(rows: Table, log: seq<Stmt>)

  // A sql.Tx: its uncommitted statements, or finished, or a nil pointer.
  datatype Tx = Open(pending: seq<Stmt>) | Done | Nil

  datatype Reply = Affected(rows: nat) | Found(row: Option<Row>) | Ok | Error | Panic

  function Exec(db: Db, stmt: Stmt, failed: bool): (Db, Reply) {
    var outcome := stmt.effect(Lookup(db.rows, stmt.id));
    if failed || outcome.Rejected? then (db, Error)
    else (Db(Apply(db.rows, stmt), db.log + [stmt]), Affected(outcome.affected))
  }

  function Query(db: Db, id: int, failed: bool): Reply {
    if failed then Error else Found(Lookup(db.rows, id))
  }

  // A transaction sees the committed rows through its own uncommitted statements.
  function TxRows(db: Db, pending: seq<Stmt>): Table {
    ApplyAll(db.rows, pending)
  }

  function TxExec(db: Db, tx: Tx, stmt: Stmt, failed: bool): (Tx, Reply) {
    match tx
    case Nil => (tx, Panic)
    case Done => (tx, Error)
    case Open(pending) =>
      var outcome := stmt.effect(Lookup(TxRows(db, pending), stmt.id));
      if failed || outcome.Rejected? then (tx, Error)
      else (Open(pending + [stmt]), Affected(outcome.affected))
  }

  function TxQuery(db: Db, tx: Tx, id: int, failed: bool): Reply {
    match tx
    case Nil => Panic
    case Done => Error
    case Open(pending) => if failed then Error else Found(Lookup(TxRows(db, pending), id))
  }

  // Commit and Rollback finish the transaction whether or not they succeed.
  function TxCommit(db: Db, tx: Tx, failed: bool): (Db, Tx, Reply) {
    match tx
    case Nil => (db, tx, Panic)
    case Done => (db, tx, Error)
    case Open(pending) =>
      if failed then (db, Done, Error)
      else (Db(TxRows(db, pending), db.log + pending), Done, Ok)
  }

  function TxRollback(tx: Tx, failed: bool): (Tx, Reply) {
    match tx
    case Nil => (tx, Panic)
    case Done => (tx, Error)
    case Open(_) => (Done, if failed then Error else Ok)
  }

  // ---------- The pair of databases ----------

  // Which of the two databases fails the call put to it.
  type Faults = Pair<bool>

  datatype DoubleTx = DoubleTx(pattern: Pattern, parts: Pair<Tx>)

  function DoubleExec(pattern: Pattern, dbs: Pair<Db>, stmt: Stmt, f: Faults): (Pair<Db>, Reply) {
    if pattern.Unknown? then (dbs, Error)
    else
      var p := Primary(pattern);
      var (db, reply) := Exec(dbs.Get(p), stmt, f.Get(p));
      var written := dbs.Put(p, db);
      if reply.Affected? && Mirrors(pattern) then
        (written.Put(Other(p), Exec(dbs.Get(Other(p)), stmt, f.Get(Other(p))).0), reply)
      else
        (written, reply)
  }

  function DoubleQuery(pattern: Pattern, dbs: Pair<Db>, id: int, f: Faults): Reply {
    if pattern.Unknown? then Error
    else Query(dbs.Get(Primary(pattern)), id, f.Get(Primary(pattern)))
  }

  // A secondary that cannot begin makes src_first return its error, while dst_first
  // hands out a transaction whose secondary part is a nil pointer.
  function DoubleBegin(pattern: Pattern, f: Faults): Option<DoubleTx> {
    if pattern.Unknown? || f.Get(Primary(pattern)) then None
    else if !Mirrors(pattern) then
      Some(DoubleTx(pattern, Pair(Nil, Nil).Put(Primary(pattern), Open([]))))
    else if !f.Get(Other(Primary(pattern))) then
      Some(DoubleTx(pattern, Pair(Open([]), Open([]))))
    else if pattern == DstFirst then
      Some(DoubleTx(pattern, Pair(Nil, Open([]))))
    else None
  }

  function DoubleTxExec(tx: DoubleTx, dbs: Pair<Db>, stmt: Stmt, f: Faults): (Pair<Tx>, Reply) {
    if tx.pattern.Unknown? then (tx.parts, Error)
    else
      var p, s := Primary(tx.pattern), Other(Primary(tx.pattern));
      var (part, reply) := TxExec(dbs.Get(p), tx.parts.Get(p), stmt, f.Get(p));
      var parts := tx.parts.Put(p, part);
      if reply.Affected? && Mirrors(tx.pattern) then
        var (mirror, other) := TxExec(dbs.Get(s), tx.parts.Get(s), stmt, f.Get(s));
        (parts.Put(s, mirror), if other.Panic? then Panic else reply)
      else
        (parts, reply)
  }

  function DoubleTxQuery(tx: DoubleTx, dbs: Pair<Db>, id: int, f: Faults): Reply {
    if tx.pattern.Unknown? then Error
    else
      var p := Primary(tx.pattern);
      TxQuery(dbs.Get(p), tx.parts.Get(p), id, f.Get(p))
  }

  // The mirror is committed, or rolled back, only after the primary and only if it began.
  function DoubleCommit(tx: DoubleTx, dbs: Pair<Db>, f: Faults): (Pair<Db>, Pair<Tx>, Reply) {
    if tx.pattern.Unknown? then (dbs, tx.parts, Error)
    else
      var p, s := Primary(tx.pattern), Other(Primary(tx.pattern));
      var (db, part, reply) := TxCommit(dbs.Get(p), tx.parts.Get(p), f.Get(p));
      var dbs', parts := dbs.Put(p, db), tx.parts.Put(p, part);
      if reply.Ok? && Mirrors(tx.pattern) && !tx.parts.Get(s).Nil? then
        var (mirror, mirrorPart, _) := TxCommit(dbs.Get(s), tx.parts.Get(s), f.Get(s));
        (dbs'.Put(s, mirror), parts.Put(s, mirrorPart), reply)
      else
        (dbs', parts, reply)
  }

  function DoubleRollback(tx: DoubleTx, f: Faults): (Pair<Tx>, Reply) {
    if tx.pattern.Unknown? then (tx.parts, Error)
    else
      var p, s := Primary(tx.pattern), Other(Primary(tx.pattern));
      var (part, reply) := TxRollback(tx.parts.Get(p), f.Get(p));
      var parts := tx.parts.Put(p, part);
      if reply.Ok? && Mirrors(tx.pattern) && !tx.parts.Get(s).Nil? then
        (parts.Put(s, TxRollback(tx.parts.Get(s), f.Get(s)).0), reply)
      else
        (parts, reply)
  }

  // ---------- Runs of the pool, and of one database alone ----------

  datatype Op =
    | UpdatePattern(pattern: Pattern)
    | ExecContext(stmt: Stmt)
    | QueryContext(id: int)
    | BeginTx(tx: nat)
    | TxExecContext(tx: nat, stmt: Stmt)
    | TxQueryContext(tx: nat, id: int)
    | Commit(tx: nat)
    | Rollback(tx: nat)

  // A call and the databases that fail it.
  datatype Call = Call(op: Op, faults: Faults)

  datatype Pool = Pool(dbs: Pair<Db>, pattern: Pattern, txs: map<nat, DoubleTx>)

  datatype Solo = Solo(db: Db, txs: map<nat, Tx>)

  function PoolStep(s: Pool, c: Call): (Pool, Reply) {
    match c.op
    case UpdatePattern(p) => if p.Unknown? then (s, Error) else (s.(pattern := p), Ok)
    case ExecContext(stmt) =>
      var (dbs, reply) := DoubleExec(s.pattern, s.dbs, stmt, c.faults);
      (s.(dbs := dbs), reply)
    case QueryContext(id) => (s, DoubleQuery(s.pattern, s.dbs, id, c.faults))
    case BeginTx(t) =>
      var tx := DoubleBegin(s.pattern, c.faults);
      if tx.Some? then (s.(txs := s.txs[t := tx.value]), Ok) else (s, Error)
    case TxExecContext(t, stmt) =>
      if t !in s.txs then (s, Error)
      else
        var (parts, reply) := DoubleTxExec(s.txs[t], s.dbs, stmt, c.faults);
        (s.(txs := s.txs[t := s.txs[t].(parts := parts)]), reply)
    case TxQueryContext(t, id) =>
      if t !in s.txs then (s, Error) else (s, DoubleTxQuery(s.txs[t], s.dbs, id, c.faults))
    case Commit(t) =>
      if t !in s.txs then (s, Error)
      else
        var (dbs, parts, reply) := DoubleCommit(s.txs[t], s.dbs, c.faults);
        (s.(dbs := dbs, txs := s.txs[t := s.txs[t].(parts := parts)]), reply)
    case Rollback(t) =>
      if t !in s.txs then (s, Error)
      else
        var (parts, reply) := DoubleRollback(s.txs[t], c.faults);
        (s.(txs := s.txs[t := s.txs[t].(parts := parts)]), reply)
  }

  function SoloStep(s: Solo, op: Op, failed: bool): (Solo, Reply) {
    match op
    case UpdatePattern(p) => (s, if p.Unknown? then Error else Ok)
    case ExecContext(stmt) =>
      var (db, reply) := Exec(s.db, stmt, failed);
      (s.(db := db), reply)
    case QueryContext(id) => (s, Query(s.db, id, failed))
    case BeginTx(t) => if failed then (s, Error) else (s.(txs := s.txs[t := Open([])]), Ok)
    case TxExecContext(t, stmt) =>
      if t !in s.txs then (s, Error)
      else
        var (tx, reply) := TxExec(s.db, s.txs[t], stmt, failed);
        (s.(txs := s.txs[t := tx]), reply)
    case TxQueryContext(t, id) =>
      if t !in s.txs then (s, Error) else (s, TxQuery(s.db, s.txs[t], id, failed))
    case Commit(t) =>
      if t !in s.txs then (s, Error)
      else
        var (db, tx, reply) := TxCommit(s.db, s.txs[t], failed);
        (Solo(db, s.txs[t := tx]), reply)
    case Rollback(t) =>
      if t !in s.txs then (s, Error)
      else
        var (tx, reply) := TxRollback(s.txs[t], failed);
        (s.(txs := s.txs[t := tx]), reply)
  }

  // The pattern a call runs under: a transaction keeps the one it began with.
  function PatternOf(s: Pool, op: Op): Pattern {
    if (op.TxExecContext? || op.TxQueryContext? || op.Commit? || op.Rollback?) && op.tx in s.txs
    then s.txs[op.tx].pattern
    else s.pattern
  }

  function PrimaryFails(s: Pool, c: Call): bool {
    c.faults.Get(Primary(PatternOf(s, c.op)))
  }

  function SecondaryFails(s: Pool, c: Call): bool {
    c.faults.Get(Other(Primary(PatternOf(s, c.op))))
  }

  function PoolAfter(s: Pool, calls: seq<Call>): Pool
    decreases |calls|
  {
    if calls == [] then s else PoolAfter(PoolStep(s, calls[0]).0, calls[1..])
  }

  function PoolReplies(s: Pool, calls: seq<Call>): seq<Reply>
    decreases |calls|
  {
    if calls == [] then []
    else [PoolStep(s, calls[0]).1] + PoolReplies(PoolStep(s, calls[0]).0, calls[1..])
  }

  // One database put through the same calls, failing just where the pool's primary does.
  function SoloAfter(one: Solo, s: Pool, calls: seq<Call>): Solo
    decreases |calls|
  {
    if calls == [] then one
    else SoloAfter(SoloStep(one, calls[0].op, PrimaryFails(s, calls[0])).0,
                   PoolStep(s, calls[0]).0, calls[1..])
  }

  function SoloReplies(one: Solo, s: Pool, calls: seq<Call>): seq<Reply>
    decreases |calls|
  {
    if calls == [] then []
    else
      var (next, reply) := SoloStep(one, calls[0].op, PrimaryFails(s, calls[0]));
      [reply] + SoloReplies(next, PoolStep(s, calls[0]).0, calls[1..])
  }

  // ---------- What the calls do, row by row ----------

  /** src_only and src_first answer from src, dst_only and dst_first from dst, and only the two
      first patterns write the other side. */
  lemma PatternSides(p: Pattern)
    ensures p == SrcOnly || p == SrcFirst ==> Primary(p) == Src
    ensures p == DstOnly || p == DstFirst ==> Primary(p) == Dst
    ensures Mirrors(p) <==> p == SrcFirst || p == DstFirst
  {
  }

  /** A statement changes its own row as it asks to, or, failed or rejected, nothing. */
  lemma ExecMeans(db: Db, stmt: Stmt, failed: bool, id: int)
    ensures var (db', reply) := Exec(db, stmt, failed);
            var outcome := stmt.effect(Lookup(db.rows, stmt.id));
            if failed || outcome.Rejected? then db' == db && reply == Error
            else
              && Lookup(db'.rows, id) == (if id == stmt.id then outcome.row else Lookup(db.rows, id))
              && db'.log == db.log + [stmt] && reply == Affected(outcome.affected)
  {
  }

  /** A call under a pattern that does not mirror leaves the other database alone. */
  lemma SingleLeavesOther(s: Pool, c: Call)
    requires !Mirrors(PatternOf(s, c.op))
    ensures var other := Other(Primary(PatternOf(s, c.op)));
            PoolStep(s, c).0.dbs.Get(other) == s.dbs.Get(other)
  {
    hide Exec, TxExec, TxCommit, TxRollback;
  }

  /** Every known pattern takes effect at once, for calls outside transactions. */
  lemma PatternTakesEffect(s: Pool, p: Pattern, f: Faults, op: Op)
    requires !p.Unknown? && (op.ExecContext? || op.QueryContext? || op.BeginTx?)
    ensures var s' := PoolStep(s, Call(UpdatePattern(p), f)).0;
            s' == s.(pattern := p) && PatternOf(s', op) == p
  {
  }

  // ---------- A transaction is its statements ----------

  lemma {:induction false} PoolConcat(s: Pool, a: seq<Call>, b: seq<Call>)
    ensures PoolAfter(s, a + b) == PoolAfter(PoolAfter(s, a), b)
    ensures PoolReplies(s, a + b) == PoolReplies(s, a) + PoolReplies(PoolAfter(s, a), b)
    decreases |a|
  {
    hide PoolStep;
    if a == [] {
      assert a + b == b;
    } else {
      assert (a + b)[1..] == a[1..] + b;
      PoolConcat(PoolStep(s, a[0]).0, a[1..], b);
    }
  }

  lemma PoolOne(s: Pool, c: Call)
    ensures PoolAfter(s, [c]) == PoolStep(s, c).0 && PoolReplies(s, [c]) == [PoolStep(s, c).1]
  {
    hide PoolStep;
    assert [c][1..] == [];
  }

  // A statement and the databases that fail it.
  datatype Request = Request(stmt: Stmt, faults: Faults)

  function Directly(rs: seq<Request>): (calls: seq<Call>)
    ensures |calls| == |rs|
    ensures forall i :: 0 <= i < |rs| ==> calls[i] == Call(ExecContext(rs[i].stmt), rs[i].faults)
  {
    seq(|rs|, i requires 0 <= i < |rs| => Call(ExecContext(rs[i].stmt), rs[i].faults))
  }

  function Inside(t: nat, rs: seq<Request>): (calls: seq<Call>)
    ensures |calls| == |rs|
    ensures forall i :: 0 <= i < |rs| ==> calls[i] == Call(TxExecContext(t, rs[i].stmt), rs[i].faults)
  {
    seq(|rs|, i requires 0 <= i < |rs| => Call(TxExecContext(t, rs[i].stmt), rs[i].faults))
  }

  // One database direct is where it would be once the part open on it commits.
  ghost predicate Ahead(base: Db, part: Tx, direct: Db) {
    part.Open? && direct.rows == TxRows(base, part.pending) && direct.log == base.log + part.pending
  }

  // Pool p runs the statements inside transaction t, pool d directly.
  ghost predicate Alike(p: Pool, d: Pool, t: nat) {
    var first := Primary(d.pattern);
    && !d.pattern.Unknown? && p.pattern == d.pattern
    && t in p.txs && p.txs[t].pattern == d.pattern
    && Ahead(p.dbs.Get(first), p.txs[t].parts.Get(first), d.dbs.Get(first))
    && (if Mirrors(d.pattern)
        then Ahead(p.dbs.Get(Other(first)), p.txs[t].parts.Get(Other(first)), d.dbs.Get(Other(first)))
        else d.dbs.Get(Other(first)) == p.dbs.Get(Other(first)))
  }

  lemma AheadStep(base: Db, part: Tx, direct: Db, stmt: Stmt, failed: bool)
    requires Ahead(base, part, direct)
    ensures Ahead(base, TxExec(base, part, stmt, failed).0, Exec(direct, stmt, failed).0)
    ensures TxExec(base, part, stmt, failed).1 == Exec(direct, stmt, failed).1
    ensures !TxExec(base, part, stmt, failed).1.Panic?
  {
    hide ApplyAll, Apply;
    var pending := part.pending;
    ApplyLast(base.rows, pending, stmt);
    assert (base.log + pending) + [stmt] == base.log + (pending + [stmt]);
    assert direct == Db(TxRows(base, pending), base.log + pending);
    if !failed && stmt.effect(Lookup(direct.rows, stmt.id)).Applied? {
      assert TxExec(base, part, stmt, failed).0 == Open(pending + [stmt]);
      assert Exec(direct, stmt, failed).0 == Db(Apply(direct.rows, stmt), direct.log + [stmt]);
    }
  }

  lemma AheadCommit(base: Db, part: Tx, direct: Db)
    requires Ahead(base, part, direct)
    ensures TxCommit(base, part, false) == (direct, Done, Ok)
  {
    hide ApplyAll;
  }

  lemma AlikeStep(p: Pool, d: Pool, t: nat, r: Request)
    requires Alike(p, d, t)
    ensures var (p', inside) := PoolStep(p, Call(TxExecContext(t, r.stmt), r.faults));
            var (d', direct) := PoolStep(d, Call(ExecContext(r.stmt), r.faults));
            Alike(p', d', t) && inside == direct && p'.dbs == p.dbs
  {
    var first := Primary(d.pattern);
    var other := Other(first);
    AheadStep(p.dbs.Get(first), p.txs[t].parts.Get(first), d.dbs.Get(first), r.stmt, r.faults.Get(first));
    if Mirrors(d.pattern) {
      AheadStep(p.dbs.Get(other), p.txs[t].parts.Get(other), d.dbs.Get(other), r.stmt, r.faults.Get(other));
    }
    hide Ahead, TxExec, Exec;
  }

  lemma {:induction false} AlikeRun(p: Pool, d: Pool, t: nat, rs: seq<Request>)
    requires Alike(p, d, t)
    ensures Alike(PoolAfter(p, Inside(t, rs)), PoolAfter(d, Directly(rs)), t)
    ensures PoolReplies(p, Inside(t, rs)) == PoolReplies(d, Directly(rs))
    ensures PoolAfter(p, Inside(t, rs)).dbs == p.dbs
    decreases |rs|
  {
    hide PoolStep, Alike;
    if rs != [] {
      assert Inside(t, rs)[1..] == Inside(t, rs[1..]) && Directly(rs)[1..] == Directly(rs[1..]);
      AlikeStep(p, d, t, rs[0]);
      AlikeRun(PoolStep(p, Inside(t, rs)[0]).0, PoolStep(d, Directly(rs)[0]).0, t, rs[1..]);
    }
  }

  const FAULTLESS: Faults := Pair(false, false)

  lemma BeginAlike(s: Pool, t: nat)
    requires !s.pattern.Unknown?
    ensures var (s', reply) := PoolStep(s, Call(BeginTx(t), FAULTLESS));
            Alike(s', s, t) && reply == Ok && s'.dbs == s.dbs
  {
    assert TxRows(s.dbs.src, []) == s.dbs.src.rows && TxRows(s.dbs.dst, []) == s.dbs.dst.rows;
  }

  lemma CommitAlike(p: Pool, d: Pool, t: nat)
    requires Alike(p, d, t)
    ensures var (p', reply) := PoolStep(p, Call(Commit(t), FAULTLESS));
            p'.dbs == d.dbs && reply == Ok
  {
    var first := Primary(d.pattern);
    var other := Other(first);
    AheadCommit(p.dbs.Get(first), p.txs[t].parts.Get(first), d.dbs.Get(first));
    if Mirrors(d.pattern) {
      AheadCommit(p.dbs.Get(other), p.txs[t].parts.Get(other), d.dbs.Get(other));
    }
    hide TxCommit;
  }

  // Begin a transaction and run the statements in it.
  function Opened(t: nat, rs: seq<Request>): seq<Call> {
    [Call(BeginTx(t), FAULTLESS)] + Inside(t, rs)
  }

  lemma OpenedAlike(s: Pool, t: nat, rs: seq<Request>)
    requires !s.pattern.Unknown?
    ensures var open := PoolAfter(s, Opened(t, rs));
            Alike(open, PoolAfter(s, Directly(rs)), t) && open.dbs == s.dbs
    ensures PoolReplies(s, Opened(t, rs)) == [Ok] + PoolReplies(s, Directly(rs))
  {
    hide PoolStep, Alike;
    PoolConcat(s, [Call(BeginTx(t), FAULTLESS)], Inside(t, rs));
    PoolOne(s, Call(BeginTx(t), FAULTLESS));
    BeginAlike(s, t);
    AlikeRun(PoolStep(s, Call(BeginTx(t), FAULTLESS)).0, s, t, rs);
  }

  /** Begun, filled with any statements, whichever of them either database fails or rejects, and
      committed, a transaction leaves both databases as the same statements made directly on
      the pool do, and every statement has the same reply. */
  lemma TransactionIsItsStatements(s: Pool, t: nat, rs: seq<Request>)
    requires !s.pattern.Unknown?
    ensures var calls := Opened(t, rs) + [Call(Commit(t), FAULTLESS)];
            && PoolAfter(s, calls).dbs == PoolAfter(s, Directly(rs)).dbs
            && PoolReplies(s, calls) == [Ok] + PoolReplies(s, Directly(rs)) + [Ok]
  {
    hide PoolStep, Alike;
    OpenedAlike(s, t, rs);
    var open := PoolAfter(s, Opened(t, rs));
    PoolConcat(s, Opened(t, rs), [Call(Commit(t), FAULTLESS)]);
    PoolOne(open, Call(Commit(t), FAULTLESS));
    CommitAlike(open, PoolAfter(s, Directly(rs)), t);
  }

  /** Before it commits, a transaction's own queries see its statements, as a query after the
      same statements made directly would, and queries outside it see none of them. */
  lemma TransactionSeesItself(s: Pool, t: nat, rs: seq<Request>, id: int)
    requires !s.pattern.Unknown?
    ensures var open, direct := PoolAfter(s, Opened(t, rs)), PoolAfter(s, Directly(rs));
            && PoolStep(open, Call(TxQueryContext(t, id), FAULTLESS)).1 ==
               PoolStep(direct, Call(QueryContext(id), FAULTLESS)).1 ==
               Found(Lookup(direct.dbs.Get(Primary(s.pattern)).rows, id))
            && PoolStep(open, Call(QueryContext(id), FAULTLESS)).1 ==
               Found(Lookup(s.dbs.Get(Primary(s.pattern)).rows, id))
  {
    hide PoolAfter, TxRows;
    OpenedAlike(s, t, rs);
    PatternStays(s, rs);
    QueryAlike(PoolAfter(s, Opened(t, rs)), PoolAfter(s, Directly(rs)), t, id);
  }

  lemma QueryAlike(p: Pool, d: Pool, t: nat, id: int)
    requires Alike(p, d, t)
    ensures PoolStep(p, Call(TxQueryContext(t, id), FAULTLESS)).1 ==
            PoolStep(d, Call(QueryContext(id), FAULTLESS)).1 ==
            Found(Lookup(d.dbs.Get(Primary(d.pattern)).rows, id))
    ensures PoolStep(p, Call(QueryContext(id), FAULTLESS)).1 == Found(Lookup(p.dbs.Get(Primary(d.pattern)).rows, id))
  {
    hide TxRows;
  }

  lemma {:induction false} PatternStays(s: Pool, rs: seq<Request>)
    ensures PoolAfter(s, Directly(rs)).pattern == s.pattern
    decreases |rs|
  {
    if rs != [] {
      assert Directly(rs)[1..] == Directly(rs[1..]);
      PatternStays(PoolStep(s, Directly(rs)[0]).0, rs[1..]);
    }
  }

  /** Rolled back instead, it leaves both databases as they were, and is finished: further
      statements, queries, commits and rollbacks of it are errors. */
  lemma RolledBackLeavesNothing(s: Pool, t: nat, rs: seq<Request>, stmt: Stmt, id: int, f: Faults)
    requires !s.pattern.Unknown?
    ensures var end := PoolAfter(s, Opened(t, rs) + [Call(Rollback(t), FAULTLESS)]);
            && end.dbs == s.dbs
            && PoolStep(end, Call(TxExecContext(t, stmt), f)) == (end, Error)
            && PoolStep(end, Call(TxQueryContext(t, id), f)).1 == Error
            && PoolStep(end, Call(Commit(t), f)) == (end, Error)
            && PoolStep(end, Call(Rollback(t), f)) == (end, Error)
  {
    OpenedAlike(s, t, rs);
    var open := PoolAfter(s, Opened(t, rs));
    PoolConcat(s, Opened(t, rs), [Call(Rollback(t), FAULTLESS)]);
    PoolOne(open, Call(Rollback(t), FAULTLESS));
    hide PoolAfter, TxRows, Opened;
    var end := PoolStep(open, Call(Rollback(t), FAULTLESS)).0;
    assert end.txs[t].parts.Get(Primary(end.txs[t].pattern)) == Done;
    FinishedIsFinished(end, t, stmt, id, f);
  }

  lemma FinishedIsFinished(s: Pool, t: nat, stmt: Stmt, id: int, f: Faults)
    requires t in s.txs && !s.txs[t].pattern.Unknown?
    requires s.txs[t].parts.Get(Primary(s.txs[t].pattern)) == Done
    ensures PoolStep(s, Call(TxExecContext(t, stmt), f)) == (s, Error)
    ensures PoolStep(s, Call(TxQueryContext(t, id), f)).1 == Error
    ensures PoolStep(s, Call(Commit(t), f)) == (s, Error)
    ensures PoolStep(s, Call(Rollback(t), f)) == (s, Error)
  {
    var tx := s.txs[t];
    var first := Primary(tx.pattern);
    assert tx.parts.Put(first, Done) == tx.parts && s.dbs.Put(first, s.dbs.Get(first)) == s.dbs;
    assert s.txs[t := tx.(parts := tx.parts)] == s.txs;
  }

  // ---------- A mirrored log never gains or reorders statements ----------

  // a is b with some elements left out.
  ghost predicate Subsequence(a: seq<Stmt>, b: seq<Stmt>) {
    a == [] || (b != [] &&
      ((a[|a| - 1] == b[|b| - 1] && Subsequence(a[..|a| - 1], b[..|b| - 1])) ||
       Subsequence(a, b[..|b| - 1])))
  }

  lemma SubsequenceSkip(a: seq<Stmt>, b: seq<Stmt>, x: Stmt)
    requires Subsequence(a, b)
    ensures Subsequence(a, b + [x])
  {
    assert (b + [x])[..|b|] == b;
  }

  lemma SubsequenceBoth(a: seq<Stmt>, b: seq<Stmt>, x: Stmt)
    requires Subsequence(a, b)
    ensures Subsequence(a + [x], b + [x])
  {
    assert (a + [x])[..|a|] == a && (b + [x])[..|b|] == b;
  }

  lemma {:induction false} SubsequenceConcat(a: seq<Stmt>, b: seq<Stmt>, c: seq<Stmt>, d: seq<Stmt>)
    requires Subsequence(a, b) && Subsequence(c, d)
    ensures Subsequence(a + c, b + d)
  {
    if d == [] {
      assert a + c == a && b + d == b;
    } else {
      var x, front := d[|d| - 1], d[..|d| - 1];
      assert b + d == (b + front) + [x];
      if Subsequence(c, front) {
        SubsequenceConcat(a, b, c, front);
        SubsequenceSkip(a + c, b + front, x);
      } else if c != [] {
        var init := c[..|c| - 1];
        SubsequenceConcat(a, b, init, front);
        SubsequenceBoth(a + init, b + front, x);
        assert a + c == (a + init) + [x];
      }
    }
  }

  lemma SubsequenceNone(b: seq<Stmt>)
    ensures Subsequence([], b)
  {
  }

  // ---------- Double writing refines the primary alone ----------

  // The pool's primary is the one database, transaction by transaction; a mirrored
  // transaction holds a subsequence of the primary's statements, and so does its log.
  ghost predicate Refines(s: Pool, one: Solo) {
    var p := Primary(s.pattern);
    && !s.pattern.Unknown?
    && s.dbs.Get(p) == one.db
    && Subsequence(s.dbs.Get(Other(p)).log, s.dbs.Get(p).log)
    && s.txs.Keys == one.txs.Keys
    && forall t :: t in s.txs ==> TxRefines(s.txs[t], one.txs[t], s.pattern)
  }

  ghost predicate TxRefines(tx: DoubleTx, one: Tx, pattern: Pattern) {
    var mirror := tx.parts.Get(Other(Primary(tx.pattern)));
    && !tx.pattern.Unknown?
    && tx.parts.Get(Primary(tx.pattern)) == one && !one.Nil?
    && (one.Open? ==>
          && tx.pattern == pattern
          && (Mirrors(pattern) ==> !mirror.Nil?)
          && (mirror.Open? ==> Subsequence(mirror.pending, one.pending)))
  }

  // The calls the refinement covers: the pattern is kept, and no mirrored transaction
  // fails to begin on the secondary alone.
  ghost predicate Covered(s: Pool, c: Call) {
    && (c.op.UpdatePattern? ==> c.op.pattern == s.pattern || c.op.pattern.Unknown?)
    && (c.op.BeginTx? && Mirrors(s.pattern) && !PrimaryFails(s, c) ==> !SecondaryFails(s, c))
  }

  ghost predicate AllCovered(s: Pool, calls: seq<Call>)
    decreases |calls|
  {
    calls == [] || (Covered(s, calls[0]) && AllCovered(PoolStep(s, calls[0]).0, calls[1..]))
  }

  lemma RefinesStep(s: Pool, one: Solo, c: Call)
    requires Refines(s, one) && Covered(s, c)
    ensures var (s', reply) := PoolStep(s, c);
            var (one', soloReply) := SoloStep(one, c.op, PrimaryFails(s, c));
            reply == soloReply && Refines(s', one') && s'.pattern == s.pattern
  {
    hide DoubleExec, DoubleTxExec, DoubleCommit, DoubleRollback, Subsequence, TxExec, TxCommit;
    if c.op.BeginTx? {
      SubsequenceNone([]);
    } else if c.op.ExecContext? {
      ExecRefines(s, one, c.op.stmt, c.faults);
    } else if c.op.TxExecContext? && c.op.tx in s.txs {
      TxExecRefines(s, one, c.op.tx, c.op.stmt, c.faults);
    } else if c.op.Commit? && c.op.tx in s.txs {
      CommitRefines(s, one, c.op.tx, c.faults);
    } else if c.op.Rollback? && c.op.tx in s.txs {
      RollbackRefines(s, one, c.op.tx, c.faults);
    } else if c.op.TxQueryContext? && c.op.tx in s.txs {
      assert TxRefines(s.txs[c.op.tx], one.txs[c.op.tx], s.pattern);
    }
  }

  lemma ExecRefines(s: Pool, one: Solo, stmt: Stmt, f: Faults)
    requires Refines(s, one)
    ensures var (dbs, reply) := DoubleExec(s.pattern, s.dbs, stmt, f);
            var (db, soloReply) := Exec(one.db, stmt, f.Get(Primary(s.pattern)));
            reply == soloReply && Refines(s.(dbs := dbs), one.(db := db))
  {
    var p := Primary(s.pattern);
    var primary, mirror := s.dbs.Get(p).log, s.dbs.Get(Other(p)).log;
    SubsequenceSkip(mirror, primary, stmt);
    SubsequenceBoth(mirror, primary, stmt);
  }

  lemma TxExecRefines(s: Pool, one: Solo, t: nat, stmt: Stmt, f: Faults)
    requires Refines(s, one) && t in s.txs
    ensures var (parts, reply) := DoubleTxExec(s.txs[t], s.dbs, stmt, f);
            var (tx, soloReply) := TxExec(one.db, one.txs[t], stmt, f.Get(Primary(s.txs[t].pattern)));
            reply == soloReply && TxRefines(s.txs[t].(parts := parts), tx, s.pattern)
  {
    hide TxRows;
    var tx, part := s.txs[t], one.txs[t];
    assert TxRefines(tx, part, s.pattern);
    var mirror := tx.parts.Get(Other(Primary(tx.pattern)));
    if part.Open? && mirror.Open? {
      SubsequenceSkip(mirror.pending, part.pending, stmt);
      SubsequenceBoth(mirror.pending, part.pending, stmt);
    }
  }

  lemma CommitRefines(s: Pool, one: Solo, t: nat, f: Faults)
    requires Refines(s, one) && t in s.txs
    ensures var (dbs, parts, reply) := DoubleCommit(s.txs[t], s.dbs, f);
            var (db, tx, soloReply) := TxCommit(one.db, one.txs[t], f.Get(Primary(s.txs[t].pattern)));
            var s' := s.(dbs := dbs, txs := s.txs[t := s.txs[t].(parts := parts)]);
            reply == soloReply && Refines(s', Solo(db, one.txs[t := tx]))
  {
    hide TxRows;
    var p := Primary(s.pattern);
    var primary, mirror := s.dbs.Get(p).log, s.dbs.Get(Other(p)).log;
    var part, other := one.txs[t], s.txs[t].parts.Get(Other(p));
    assert TxRefines(s.txs[t], part, s.pattern);
    if part.Open? {
      SubsequenceNone(part.pending);
      SubsequenceConcat(mirror, primary, [], part.pending);
      assert mirror + [] == mirror;
      if other.Open? {
        SubsequenceConcat(mirror, primary, other.pending, part.pending);
      }
    }
  }

  lemma RollbackRefines(s: Pool, one: Solo, t: nat, f: Faults)
    requires Refines(s, one) && t in s.txs
    ensures var (parts, reply) := DoubleRollback(s.txs[t], f);
            var (tx, soloReply) := TxRollback(one.txs[t], f.Get(Primary(s.txs[t].pattern)));
            reply == soloReply && TxRefines(s.txs[t].(parts := parts), tx, s.pattern)
  {
    assert TxRefines(s.txs[t], one.txs[t], s.pattern);
  }

  /** A transaction refines the primary's from its start exactly when the call is covered:
      otherwise src_first reports the secondary's failure, and dst_first hands out a
      transaction whose mirror is a nil pointer. */
  lemma BeginExact(s: Pool, one: Solo, c: Call)
    requires Refines(s, one) && c.op.BeginTx?
    ensures var (s', reply) := PoolStep(s, c);
            var (one', soloReply) := SoloStep(one, c.op, PrimaryFails(s, c));
            reply == soloReply && Refines(s', one') <==> Covered(s, c)
  {
    hide Subsequence;
    var (s', reply) := PoolStep(s, c);
    var one' := SoloStep(one, c.op, PrimaryFails(s, c)).0;
    if !Covered(s, c) && s.pattern == DstFirst {
      assert !TxRefines(s'.txs[c.op.tx], one'.txs[c.op.tx], s.pattern);
    }
    if Covered(s, c) {
      RefinesStep(s, one, c);
    }
  }

  /** The nil mirror is no detail: the first statement the primary accepts panics. */
  lemma NilMirrorPanics(s: Pool, t: nat, stmt: Stmt)
    requires s.pattern == DstFirst && stmt.effect(Lookup(s.dbs.dst.rows, stmt.id)).Applied?
    ensures PoolReplies(s, [Call(BeginTx(t), Pair(true, false)),
                            Call(TxExecContext(t, stmt), Pair(false, false))]) == [Ok, Panic]
  {
    var begin, exec := Call(BeginTx(t), Pair(true, false)), Call(TxExecContext(t, stmt), Pair(false, false));
    var s1 := PoolStep(s, begin).0;
    assert s1.txs[t] == DoubleTx(DstFirst, Pair(Nil, Open([])));
    assert PoolStep(s1, exec).1 == Panic;
    assert [begin, exec][1..] == [exec] && [exec][1..] == [];
    assert PoolReplies(s1, [exec]) == [Panic];
  }

  /** Under one pattern, callers cannot tell the pool from its primary alone, whatever
      secondary writes, commits and rollbacks fail; and the secondary's committed
      statements are always a subsequence of the primary's. */
  lemma {:induction false} DoubleWriteRefinement(s: Pool, one: Solo, calls: seq<Call>)
    requires Refines(s, one) && AllCovered(s, calls)
    ensures PoolReplies(s, calls) == SoloReplies(one, s, calls)
    ensures Refines(PoolAfter(s, calls), SoloAfter(one, s, calls))
    ensures PoolAfter(s, calls).pattern == s.pattern
    decreases |calls|
  {
    hide PoolStep, SoloStep, Refines, Covered, PrimaryFails;
    if calls != [] {
      var s', one' := PoolStep(s, calls[0]).0, SoloStep(one, calls[0].op, PrimaryFails(s, calls[0])).0;
      RefinesStep(s, one, calls[0]);
      DoubleWriteRefinement(s', one', calls[1..]);
    }
  }

  // ---------- The log is what made the rows ----------

  // Replaying the log on the first rows gives the rows.
  ghost predicate Logged(db: Db, first: Table) {
    db.rows == ApplyAll(first, db.log)
  }

  lemma ExecLogged(db: Db, first: Table, stmt: Stmt, failed: bool)
    requires Logged(db, first)
    ensures Logged(Exec(db, stmt, failed).0, first)
  {
    ApplyLast(first, db.log, stmt);
    hide ApplyAll, Apply;
  }

  lemma CommitLogged(db: Db, first: Table, tx: Tx, failed: bool)
    requires Logged(db, first)
    ensures Logged(TxCommit(db, tx, failed).0, first)
  {
    if tx.Open? {
      ApplyAllConcat(first, db.log, tx.pending);
    }
    hide ApplyAll;
  }

  ghost predicate BothLogged(dbs: Pair<Db>, first: Pair<Table>) {
    Logged(dbs.src, first.src) && Logged(dbs.dst, first.dst)
  }

  // A double statement, and a double commit, leave each database alone or do there what one does.
  lemma DoubleExecParts(pattern: Pattern, dbs: Pair<Db>, stmt: Stmt, f: Faults, side: Side)
    ensures var after := DoubleExec(pattern, dbs, stmt, f).0.Get(side);
            after == dbs.Get(side) || after == Exec(dbs.Get(side), stmt, f.Get(side)).0
  {
    hide Exec;
  }

  lemma DoubleCommitParts(tx: DoubleTx, dbs: Pair<Db>, f: Faults, side: Side)
    ensures var after := DoubleCommit(tx, dbs, f).0.Get(side);
            after == dbs.Get(side) || after == TxCommit(dbs.Get(side), tx.parts.Get(side), f.Get(side)).0
  {
    hide TxCommit;
  }

  lemma ExecBothLogged(pattern: Pattern, dbs: Pair<Db>, first: Pair<Table>, stmt: Stmt, f: Faults)
    requires BothLogged(dbs, first)
    ensures BothLogged(DoubleExec(pattern, dbs, stmt, f).0, first)
  {
    hide Exec, DoubleExec, Logged;
    DoubleExecParts(pattern, dbs, stmt, f, Src);
    DoubleExecParts(pattern, dbs, stmt, f, Dst);
    ExecLogged(dbs.src, first.src, stmt, f.src);
    ExecLogged(dbs.dst, first.dst, stmt, f.dst);
  }

  lemma CommitBothLogged(tx: DoubleTx, dbs: Pair<Db>, first: Pair<Table>, f: Faults)
    requires BothLogged(dbs, first)
    ensures BothLogged(DoubleCommit(tx, dbs, f).0, first)
  {
    hide TxCommit, DoubleCommit, Logged;
    DoubleCommitParts(tx, dbs, f, Src);
    DoubleCommitParts(tx, dbs, f, Dst);
    CommitLogged(dbs.src, first.src, tx.parts.src, f.src);
    CommitLogged(dbs.dst, first.dst, tx.parts.dst, f.dst);
  }

  lemma StepLogged(s: Pool, first: Pair<Table>, c: Call)
    requires BothLogged(s.dbs, first)
    ensures BothLogged(PoolStep(s, c).0.dbs, first)
  {
    if c.op.ExecContext? {
      ExecBothLogged(s.pattern, s.dbs, first, c.op.stmt, c.faults);
    } else if c.op.Commit? && c.op.tx in s.txs {
      CommitBothLogged(s.txs[c.op.tx], s.dbs, first, c.faults);
    }
    hide BothLogged, DoubleExec, DoubleCommit, DoubleTxExec, DoubleRollback;
  }

  /** Whatever the calls, patterns and failures, each database's rows are the replay of its own
      committed statements, in order, on the rows it began with. */
  lemma {:induction false} RowsReplayLog(s: Pool, first: Pair<Table>, calls: seq<Call>)
    requires BothLogged(s.dbs, first)
    ensures BothLogged(PoolAfter(s, calls).dbs, first)
    decreases |calls|
  {
    hide PoolStep, BothLogged;
    if calls != [] {
      StepLogged(s, first, calls[0]);
      RowsReplayLog(PoolStep(s, calls[0]).0, first, calls[1..]);
    }
  }

  /** So under one pattern the secondary's rows are the replay, on its own first rows, of some of
      the primary's statements in the primary's order. */
  lemma SecondaryReplaysSubsequence(s: Pool, one: Solo, first: Pair<Table>, calls: seq<Call>)
    requires Refines(s, one) && AllCovered(s, calls) && BothLogged(s.dbs, first)
    ensures var p, end := Primary(s.pattern), PoolAfter(s, calls).dbs;
            && end.Get(p).rows == ApplyAll(first.Get(p), end.Get(p).log)
            && end.Get(Other(p)).rows == ApplyAll(first.Get(Other(p)), end.Get(Other(p)).log)
            && Subsequence(end.Get(Other(p)).log, end.Get(p).log)
  {
    DoubleWriteRefinement(s, one, calls);
    RowsReplayLog(s, first, calls);
    hide PoolAfter, SoloAfter, ApplyAll, Subsequence, AllCovered;
  }

  // ---------- Cutting over ----------

  // Both databases are the one database, and every live transaction is mirrored intact.
  ghost predicate Synced(s: Pool, one: Solo) {
    && Mirrors(s.pattern)
    && s.dbs == Pair(one.db, one.db)
    && s.txs.Keys == one.txs.Keys
    && forall t :: t in s.txs ==> TxSynced(s.txs[t], one.txs[t])
  }

  ghost predicate TxSynced(tx: DoubleTx, one: Tx) {
    && Mirrors(tx.pattern) && !one.Nil?
    && tx.parts.Get(Primary(tx.pattern)) == one
    && (one.Open? ==> tx.parts.Get(Other(Primary(tx.pattern))) == one)
  }

  // The secondary answers, and the pattern stays one of the two that mirror.
  ghost predicate Mirrored(s: Pool, c: Call) {
    && !SecondaryFails(s, c)
    && (c.op.UpdatePattern? ==> Mirrors(c.op.pattern) || c.op.pattern.Unknown?)
  }

  ghost predicate AllMirrored(s: Pool, calls: seq<Call>)
    decreases |calls|
  {
    calls == [] || (Mirrored(s, calls[0]) && AllMirrored(PoolStep(s, calls[0]).0, calls[1..]))
  }

  lemma SyncedStep(s: Pool, one: Solo, c: Call)
    requires Synced(s, one) && Mirrored(s, c)
    ensures var (s', reply) := PoolStep(s, c);
            var (one', soloReply) := SoloStep(one, c.op, PrimaryFails(s, c));
            reply == soloReply && Synced(s', one')
  {
    hide DoubleExec, DoubleTxExec, DoubleCommit, DoubleRollback, Exec, TxExec, TxCommit, TxRollback, TxRows;
    if c.op.ExecContext? {
      SyncedExec(s, one, c.op.stmt, c.faults);
    } else if c.op.TxExecContext? && c.op.tx in s.txs {
      SyncedTxExec(s, one, c.op.tx, c.op.stmt, c.faults);
    } else if c.op.Commit? && c.op.tx in s.txs {
      SyncedFinish(s, one, c.op.tx, c.faults);
    } else if c.op.Rollback? && c.op.tx in s.txs {
      SyncedFinish(s, one, c.op.tx, c.faults);
    } else if c.op.TxQueryContext? && c.op.tx in s.txs {
      assert TxSynced(s.txs[c.op.tx], one.txs[c.op.tx]);
    }
  }

  lemma SyncedExec(s: Pool, one: Solo, stmt: Stmt, f: Faults)
    requires Synced(s, one) && !f.Get(Other(Primary(s.pattern)))
    ensures var (db, reply) := Exec(one.db, stmt, f.Get(Primary(s.pattern)));
            DoubleExec(s.pattern, s.dbs, stmt, f) == (Pair(db, db), reply)
  {
  }

  lemma SyncedTxExec(s: Pool, one: Solo, t: nat, stmt: Stmt, f: Faults)
    requires Synced(s, one) && t in s.txs && !f.Get(Other(Primary(s.txs[t].pattern)))
    ensures var (parts, reply) := DoubleTxExec(s.txs[t], s.dbs, stmt, f);
            var (tx, soloReply) := TxExec(one.db, one.txs[t], stmt, f.Get(Primary(s.txs[t].pattern)));
            reply == soloReply && TxSynced(s.txs[t].(parts := parts), tx)
  {
    hide TxRows;
    assert TxSynced(s.txs[t], one.txs[t]);
  }

  lemma SyncedFinish(s: Pool, one: Solo, t: nat, f: Faults)
    requires Synced(s, one) && t in s.txs && !f.Get(Other(Primary(s.txs[t].pattern)))
    ensures var (dbs, parts, reply) := DoubleCommit(s.txs[t], s.dbs, f);
            var (db, tx, soloReply) := TxCommit(one.db, one.txs[t], f.Get(Primary(s.txs[t].pattern)));
            reply == soloReply && dbs == Pair(db, db) && TxSynced(s.txs[t].(parts := parts), tx)
    ensures var (parts, reply) := DoubleRollback(s.txs[t], f);
            var (tx, soloReply) := TxRollback(one.txs[t], f.Get(Primary(s.txs[t].pattern)));
            reply == soloReply && TxSynced(s.txs[t].(parts := parts), tx)
  {
    hide TxRows;
    assert TxSynced(s.txs[t], one.txs[t]);
  }

  /** From equal databases, switching between src_first and dst_first at any moment, even
      with transactions open, is invisible: every answer is the one database's. */
  lemma {:induction false} InvisibleSwitching(s: Pool, one: Solo, calls: seq<Call>)
    requires Synced(s, one) && AllMirrored(s, calls)
    ensures PoolReplies(s, calls) == SoloReplies(one, s, calls)
    ensures Synced(PoolAfter(s, calls), SoloAfter(one, s, calls))
    decreases |calls|
  {
    hide PoolStep, SoloStep, Synced, Mirrored, PrimaryFails;
    if calls != [] {
      var s', one' := PoolStep(s, calls[0]).0, SoloStep(one, calls[0].op, PrimaryFails(s, calls[0])).0;
      SyncedStep(s, one, calls[0]);
      InvisibleSwitching(s', one', calls[1..]);
    }
  }

  ghost predicate NoneOpen(s: Solo) {
    forall t :: t in s.txs ==> s.txs[t].Done?
  }

  // With no transaction open, equal databases can be entered under any pattern.
  lemma SyncedThenAny(s: Pool, one: Solo, p: Pattern)
    requires Synced(s, one) && NoneOpen(one) && !p.Unknown?
    ensures Refines(s.(pattern := p), one)
  {
    SubsequenceSelf(one.db.log);
    forall t | t in s.txs ensures TxRefines(s.txs[t], one.txs[t], p) {
      assert TxSynced(s.txs[t], one.txs[t]);
    }
  }

  lemma {:induction false} SubsequenceSelf(a: seq<Stmt>)
    ensures Subsequence(a, a)
  {
    if a != [] {
      SubsequenceSelf(a[..|a| - 1]);
    }
  }

  /** The last cut: after any mirrored traffic that ends with no transaction open, moving
      to any pattern, such as dst_only, is as invisible, whatever then befalls the
      database left behind. */
  lemma InvisibleCutOver(s: Pool, one: Solo, before: seq<Call>, p: Pattern, after: seq<Call>)
    requires Synced(s, one) && AllMirrored(s, before) && !p.Unknown?
    requires NoneOpen(SoloAfter(one, s, before))
    requires AllCovered(PoolAfter(s, before).(pattern := p), after)
    ensures var mid, soloMid := PoolAfter(s, before).(pattern := p), SoloAfter(one, s, before);
            && PoolReplies(s, before) == SoloReplies(one, s, before)
            && PoolReplies(mid, after) == SoloReplies(soloMid, mid, after)
            && PoolAfter(mid, after).dbs.Get(Primary(p)) == SoloAfter(soloMid, mid, after).db
  {
    InvisibleSwitching(s, one, before);
    SyncedThenAny(PoolAfter(s, before), SoloAfter(one, s, before), p);
    DoubleWriteRefinement(PoolAfter(s, before).(pattern := p), SoloAfter(one, s, before), after);
  }
}
