/** The connection pool's objects: databases, their transactions, and the pool and
    transaction that write to two of them in the order the pattern asks for. */
module DoubleWrite {
  import opened Tables
  import opened ConnPool

  // One of the two databases a pool writes to. Failed calls leave it unchanged.
  class Database {
    var db: Db

    constructor (rows: Table)
      ensures db == Db(rows, [])
    {
      db := Db(rows, []);
    }

    method ExecContext(stmt: Stmt, failed: bool) returns (r: Reply)
      modifies this
      ensures (db, r) == Exec(old(db), stmt, failed)
      ensures r == Error ==> db == old(db)
      ensures r != Error ==>
        var outcome := stmt.effect(Lookup(old(db).rows, stmt.id));
        && r == Affected(outcome.affected) && db.log == old(db).log + [stmt]
        && db.rows == Store(old(db).rows, stmt.id, outcome.row)
    {
      var outcome := stmt.effect(Lookup(db.rows, stmt.id));
      if failed || outcome.Rejected? {
        return Error;
      }
      db := Db(Store(db.rows, stmt.id, outcome.row), db.log + [stmt]);
      r := Affected(outcome.affected);
    }
  }

  class SqlTx {
    const database: Database
    var state: Tx

    constructor (database: Database)
      ensures this.database == database && state == Open([])
    {
      this.database, state := database, Open([]);
    }
  }

  ghost function PartOf(tx: SqlTx?): Tx
    reads tx
  {
    if tx == null then Nil else tx.state
  }

  // Calls on a possibly nil *sql.Tx.
  method ExecOn(tx: SqlTx?, stmt: Stmt, failed: bool) returns (r: Reply)
    modifies tx
    ensures tx != null ==> (tx.state, r) == TxExec(tx.database.db, old(tx.state), stmt, failed)
    ensures tx == null ==> r == Panic
  {
    if tx == null {
      return Panic;
    }
    match tx.state
    case Open(pending) =>
      var outcome := stmt.effect(Lookup(TxRows(tx.database.db, pending), stmt.id));
      if failed || outcome.Rejected? {
        return Error;
      }
      tx.state := Open(pending + [stmt]);
      r := Affected(outcome.affected);
    case Done => r := Error;
    case Nil => r := Panic;
  }

  method CommitOn(tx: SqlTx, failed: bool) returns (r: Reply)
    modifies tx, tx.database
    ensures (tx.database.db, tx.state, r) == TxCommit(old(tx.database.db), old(tx.state), failed)
    ensures r == Ok <==> old(tx.state).Open? && !failed
    ensures r == Ok ==>
      && tx.database.db.rows == ApplyAll(old(tx.database.db).rows, old(tx.state).pending)
      && tx.database.db.log == old(tx.database.db).log + old(tx.state).pending
    ensures r != Ok ==> tx.database.db == old(tx.database.db)
    ensures old(tx.state).Open? ==> tx.state == Done
  {
    match tx.state
    case Open(pending) =>
      tx.state := Done;
      if failed {
        return Error;
      }
      var db := tx.database.db;
      tx.database.db := Db(ApplyAll(db.rows, pending), db.log + pending);
      r := Ok;
    case Done => r := Error;
    case Nil => r := Panic;
  }

  method RollbackOn(tx: SqlTx, failed: bool) returns (r: Reply)
    modifies tx
    ensures (tx.state, r) == TxRollback(old(tx.state), failed)
    ensures old(tx.state).Open? ==> tx.state == Done && r == if failed then Error else Ok
  {
    match tx.state
    case Open(_) =>
      tx.state := Done;
      r := if failed then Error else Ok;
    case Done => r := Error;
    case Nil => r := Panic;
  }

  class DoubleWriteTx {
    const src: SqlTx?
    const dst: SqlTx?
    const pattern: Pattern
    ghost const databases: Pair<Database>

    // The parts a pattern relies on exist, and belong to different databases.
    ghost predicate Valid() {
      && databases.src != databases.dst
      && (src != null ==> src.database == databases.src)
      && (dst != null ==> dst.database == databases.dst)
      && (src != null ==> src != dst)
      && (!pattern.Unknown? ==> if Primary(pattern) == Src then src != null else dst != null)
    }

    ghost function Dbs(): Pair<Db>
      reads databases.src, databases.dst
    {
      Pair(databases.src.db, databases.dst.db)
    }

    ghost function Value(): DoubleTx
      reads src, dst
    {
      DoubleTx(pattern, Pair(PartOf(src), PartOf(dst)))
    }

    constructor (ghost databases: Pair<Database>, src: SqlTx?, dst: SqlTx?, pattern: Pattern)
      ensures this.databases == databases && this.src == src && this.dst == dst && this.pattern == pattern
    {
      this.databases, this.src, this.dst, this.pattern := databases, src, dst, pattern;
    }

    method ExecContext(stmt: Stmt, f: Faults) returns (r: Reply)
      requires Valid()
      modifies src, dst
      ensures (Value().parts, r) == DoubleTxExec(old(Value()), Dbs(), stmt, f)
    {
      match pattern
      case SrcOnly => r := ExecOn(src, stmt, f.src);
      case SrcFirst =>
        r := ExecOn(src, stmt, f.src);
        if r.Affected? {
          var mirrored := ExecOn(dst, stmt, f.dst);
          if mirrored.Panic? {
            r := Panic;
          }
        }
      case DstOnly => r := ExecOn(dst, stmt, f.dst);
      case DstFirst =>
        r := ExecOn(dst, stmt, f.dst);
        if r.Affected? {
          var mirrored := ExecOn(src, stmt, f.src);
          if mirrored.Panic? {
            r := Panic;
          }
        }
      case Unknown(_) => r := Error;
    }

    method QueryContext(id: int, f: Faults) returns (r: Reply)
      requires Valid()
      ensures r == DoubleTxQuery(Value(), Dbs(), id, f)
    {
      match pattern
      case SrcOnly => r := TxQuery(src.database.db, src.state, id, f.src);
      case SrcFirst => r := TxQuery(src.database.db, src.state, id, f.src);
      case DstOnly => r := TxQuery(dst.database.db, dst.state, id, f.dst);
      case DstFirst => r := TxQuery(dst.database.db, dst.state, id, f.dst);
      case Unknown(_) => r := Error;
    }

    method Commit(f: Faults) returns (r: Reply)
      requires Valid()
      modifies src, dst, databases.src, databases.dst
      ensures (Dbs(), Value().parts, r) == DoubleCommit(old(Value()), old(Dbs()), f)
      ensures r == Ok ==>
        var p := Primary(pattern);
        var before, pending := old(Dbs()).Get(p), old(Value()).parts.Get(p).pending;
        && old(Value()).parts.Get(p).Open?
        && Dbs().Get(p) == Db(ApplyAll(before.rows, pending), before.log + pending)
      ensures r != Ok ==>
        Dbs() == old(Dbs())
        && Value().parts.Get(Other(Primary(pattern))) == old(Value()).parts.Get(Other(Primary(pattern)))
      ensures r == Ok ==> Value().parts.Get(Primary(pattern)) == Done
      ensures r == Ok && Mirrors(pattern) && old(Value()).parts.Get(Other(Primary(pattern))).Open? ==>
        Value().parts.Get(Other(Primary(pattern))) == Done
      ensures !Mirrors(pattern) || f.Get(Other(Primary(pattern))) ==>
        Dbs().Get(Other(Primary(pattern))) == old(Dbs()).Get(Other(Primary(pattern)))
      ensures r == Ok && Mirrors(pattern) && !f.Get(Other(Primary(pattern)))
              && old(Value()).parts.Get(Other(Primary(pattern))).Open? ==>
        var o := Other(Primary(pattern));
        var before, pending := old(Dbs()).Get(o), old(Value()).parts.Get(o).pending;
        Dbs().Get(o) == Db(ApplyAll(before.rows, pending), before.log + pending)
    {
      match pattern
      case SrcOnly => r := CommitOn(src, f.src);
      case SrcFirst =>
        r := CommitOn(src, f.src);
        if r.Ok? && dst != null {
          var _ := CommitOn(dst, f.dst);
        }
      case DstFirst =>
        r := CommitOn(dst, f.dst);
        if r.Ok? && src != null {
          var _ := CommitOn(src, f.src);
        }
      case DstOnly => r := CommitOn(dst, f.dst);
      case Unknown(_) => r := Error;
    }

    method Rollback(f: Faults) returns (r: Reply)
      requires Valid()
      modifies src, dst
      ensures (Value().parts, r) == DoubleRollback(old(Value()), f)
      ensures r != Ok ==>
        Value().parts.Get(Other(Primary(pattern))) == old(Value()).parts.Get(Other(Primary(pattern)))
      ensures r == Ok ==> Value().parts.Get(Primary(pattern)) == Done
      ensures r == Ok && Mirrors(pattern) && old(Value()).parts.Get(Other(Primary(pattern))).Open? ==>
        Value().parts.Get(Other(Primary(pattern))) == Done
    {
      match pattern
      case SrcOnly => r := RollbackOn(src, f.src);
      case SrcFirst =>
        r := RollbackOn(src, f.src);
        if r.Ok? && dst != null {
          var _ := RollbackOn(dst, f.dst);
        }
      case DstFirst =>
        r := RollbackOn(dst, f.dst);
        if r.Ok? && src != null {
          var _ := RollbackOn(src, f.src);
        }
      case DstOnly => r := RollbackOn(dst, f.dst);
      case Unknown(_) => r := Error;
    }
  }

  class DoubleWritePool {
    const src: Database
    const dst: Database
    var pattern: Pattern

    ghost predicate Valid()
      reads this
    {
      src != dst && !pattern.Unknown?
    }

    ghost function Dbs(): Pair<Db>
      reads src, dst
    {
      Pair(src.db, dst.db)
    }

    constructor (src: Database, dst: Database)
      requires src != dst
      ensures Valid() && this.src == src && this.dst == dst && pattern == SrcOnly
    {
      this.src, this.dst, pattern := src, dst, SrcOnly;
    }

    /** Only the four known patterns are ever stored. */
    method UpdatePattern(p: Pattern) returns (r: Reply)
      requires Valid()
      modifies this
      ensures Valid()
      ensures pattern == (if p.Unknown? then old(pattern) else p) && r == if p.Unknown? then Error else Ok
    {
      match p
      case Unknown(_) => r := Error;
      case _ =>
        pattern := p;
        r := Ok;
    }

    // A failed begin may still return a transaction beside its error: an empty one under the
    // single patterns, and under src_first one whose source part is open and stays so.
    method BeginTx(f: Faults) returns (tx: DoubleWriteTx?, ok: bool)
      requires Valid()
      ensures ok <==> DoubleBegin(pattern, f).Some?
      ensures ok <==> match pattern
                      case SrcOnly => !f.src
                      case SrcFirst => !f.src && !f.dst
                      case DstOnly => !f.dst
                      case DstFirst => !f.dst
                      case Unknown(_) => false
      ensures tx != null ==>
        && fresh(tx) && tx.pattern == pattern && tx.databases == Pair(src, dst)
        && (tx.src != null ==> fresh(tx.src)) && (tx.dst != null ==> fresh(tx.dst))
      ensures ok ==> tx != null && tx.Valid() && DoubleBegin(pattern, f) == Some(tx.Value())
      ensures ok ==> tx.Value().parts == match pattern
                                         case SrcOnly => Pair(Open([]), Nil)
                                         case SrcFirst => Pair(Open([]), Open([]))
                                         case DstOnly => Pair(Nil, Open([]))
                                         case DstFirst => Pair(if f.src then Nil else Open([]), Open([]))
                                         case Unknown(_) => Pair(Nil, Nil)
      ensures !ok ==> (tx != null <==> pattern == SrcOnly || pattern == DstOnly || (pattern == SrcFirst && !f.src))
      ensures !ok && tx != null ==>
        tx.Value().parts == if pattern == SrcFirst then Pair(Open([]), Nil) else Pair(Nil, Nil)
    {
      var srcTx: SqlTx?, dstTx: SqlTx? := null, null;
      tx, ok := null, false;
      match pattern {
        case SrcOnly =>
          if !f.src {
            srcTx := new SqlTx(src);
            ok := true;
          }
        case SrcFirst =>
          if f.src { return; }
          srcTx := new SqlTx(src);
          if !f.dst {
            dstTx := new SqlTx(dst);
            ok := true;
          }
        case DstOnly =>
          if !f.dst {
            dstTx := new SqlTx(dst);
            ok := true;
          }
        case DstFirst =>
          if f.dst { return; }
          dstTx := new SqlTx(dst);
          ok := true;
          if !f.src {
            srcTx := new SqlTx(src);
          }
        case Unknown(_) => return;
      }
      tx := new DoubleWriteTx(Pair(src, dst), srcTx, dstTx, pattern);
    }

    method ExecContext(stmt: Stmt, f: Faults) returns (r: Reply)
      requires Valid()
      modifies src, dst
      ensures (Dbs(), r) == DoubleExec(pattern, old(Dbs()), stmt, f)
      ensures pattern == SrcOnly || pattern == SrcFirst ==>
        && (src.db, r) == Exec(old(src.db), stmt, f.src)
        && dst.db == if pattern == SrcFirst && r.Affected? then Exec(old(dst.db), stmt, f.dst).0 else old(dst.db)
      ensures pattern == DstOnly || pattern == DstFirst ==>
        && (dst.db, r) == Exec(old(dst.db), stmt, f.dst)
        && src.db == if pattern == DstFirst && r.Affected? then Exec(old(src.db), stmt, f.src).0 else old(src.db)
    {
      match pattern
      case SrcOnly => r := src.ExecContext(stmt, f.src);
      case SrcFirst =>
        r := src.ExecContext(stmt, f.src);
        if r.Affected? {
          var _ := dst.ExecContext(stmt, f.dst);
        }
      case DstOnly => r := dst.ExecContext(stmt, f.dst);
      case DstFirst =>
        r := dst.ExecContext(stmt, f.dst);
        if r.Affected? {
          var _ := src.ExecContext(stmt, f.src);
        }
      case Unknown(_) => r := Error;
    }

    method QueryContext(id: int, f: Faults) returns (r: Reply)
      ensures r == DoubleQuery(pattern, Dbs(), id, f)
      ensures pattern == SrcOnly || pattern == SrcFirst ==> r == if f.src then Error else Found(Lookup(src.db.rows, id))
      ensures pattern == DstOnly || pattern == DstFirst ==> r == if f.dst then Error else Found(Lookup(dst.db.rows, id))
    {
      match pattern
      case SrcOnly => r := Query(src.db, id, f.src);
      case SrcFirst => r := Query(src.db, id, f.src);
      case DstOnly => r := Query(dst.db, id, f.dst);
      case DstFirst => r := Query(dst.db, id, f.dst);
      case Unknown(_) => r := Error;
    }
  }
}
