/** Rows, tables and single-row statements shared by the migration modules. */
module Tables {

  datatype Option<+T> = None | Some(value: T)

  // dao.Interactive without its primary key: a table maps the key to the row.
  datatype Row = Row(biz: string, bizId: int, readCnt: int, likeCnt: int, collectCnt: int,
                     utime: int, ctime: int)

  type Table = map<int, Row>

  function Lookup(t: Table, id: int): Option<Row> {
    if id in t then Some(t[id]) else None
  }

  function Store(t: Table, id: int, row: Option<Row>): Table {
    if row.Some? then t[id := row.value] else t - {id}
  }

  datatype Outcome = Applied(row: Option<Row>, affected: nat) | Rejected

  // Any deterministic write to one row: INSERT, UPDATE, DELETE or upsert. Rejected is
  // the database's own refusal, such as a duplicate key.
  datatype Stmt = Stmt(id: int, effect: Option<Row> -> Outcome)

  function Apply(t: Table, stmt: Stmt): Table {
    match stmt.effect(Lookup(t, stmt.id))
    case Applied(row, _) => Store(t, stmt.id, row)
    case Rejected => t
  }

  /** A statement changes its own row as it asks to, or, rejected, nothing. */
  lemma ApplyAt(t: Table, stmt: Stmt, id: int)
    ensures Lookup(Apply(t, stmt), id) ==
            var outcome := stmt.effect(Lookup(t, stmt.id));
            if id == stmt.id && outcome.Applied? then outcome.row else Lookup(t, id)
  {
  }

  function ApplyAll(t: Table, stmts: seq<Stmt>): Table {
    if stmts == [] then t
    else Apply(ApplyAll(t, stmts[..|stmts| - 1]), stmts[|stmts| - 1])
  }

  lemma ApplyLast(t: Table, log: seq<Stmt>, stmt: Stmt)
    ensures ApplyAll(t, log + [stmt]) == Apply(ApplyAll(t, log), stmt)
  {
    assert (log + [stmt])[..|log|] == log;
  }

  lemma {:induction false} ApplyAllConcat(t: Table, a: seq<Stmt>, b: seq<Stmt>)
    ensures ApplyAll(t, a + b) == ApplyAll(ApplyAll(t, a), b)
  {
    if b == [] {
      assert a + b == a;
    } else {
      var front := b[..|b| - 1];
      ApplyAllConcat(t, a, front);
      assert (a + b)[..|a + b| - 1] == a + front;
    }
  }

  // ---------- ORDER BY id ----------

  function Min(ids: set<int>): (m: int)
    requires ids != {}
    ensures m in ids && forall x :: x in ids ==> m <= x
  {
    MinExists(ids);
    var m :| m in ids && forall x :: x in ids ==> m <= x;
    m
  }

  lemma AnyOf<T>(s: set<T>) returns (x: T)
    requires s != {}
    ensures x in s
  {
    x :| x in s;
  }

  lemma {:induction false} MinExists(ids: set<int>)
    requires ids != {}
    ensures exists m :: m in ids && forall x :: x in ids ==> m <= x
  {
    var a := AnyOf(ids);
    if ids == {a} {
      assert forall x :: x in ids ==> a <= x;
    } else {
      var rest := ids - {a};
      assert ids == rest + {a};
      MinExists(rest);
      var m :| m in rest && forall x :: x in rest ==> m <= x;
      var least := if a < m then a else m;
      assert forall x :: x in ids ==> x == a || x in rest;
      assert least in ids && forall x :: x in ids ==> least <= x;
    }
  }

  // The keys in the order ORDER BY id lists them.
  function SortedIds(ids: set<int>): (s: seq<int>) {
    if ids == {} then [] else [Min(ids)] + SortedIds(ids - {Min(ids)})
  }

  // How many keys come before id.
  function Rank(ids: set<int>, id: int): nat {
    |set x | x in ids && x < id|
  }

  /** OFFSET reads the key with that many smaller keys, and finds every key. */
  lemma {:induction false} OffsetIsRank(ids: set<int>, i: nat)
    requires i < |ids|
    ensures |SortedIds(ids)| == |ids|
    ensures SortedIds(ids)[i] in ids && Rank(ids, SortedIds(ids)[i]) == i
  {
    var m := Min(ids);
    var rest := ids - {m};
    SortedIdsLength(rest);
    if i == 0 {
      assert (set x | x in ids && x < m) == {};
    } else {
      OffsetIsRank(rest, i - 1);
      var id := SortedIds(rest)[i - 1];
      RankRemove(ids, m, id);
    }
  }

  lemma {:induction false} SortedIdsLength(ids: set<int>)
    ensures |SortedIds(ids)| == |ids|
  {
    if ids != {} {
      SortedIdsLength(ids - {Min(ids)});
    }
  }

  lemma RankInRange(ids: set<int>, id: int)
    requires id in ids
    ensures Rank(ids, id) < |ids| && |SortedIds(ids)| == |ids|
    ensures SortedIds(ids)[Rank(ids, id)] == id
  {
    SortedIdsLength(ids);
    var below := set x | x in ids && x < id;
    SubsetCard(below + {id}, ids);
    var other := SortedIds(ids)[Rank(ids, id)];
    OffsetIsRank(ids, Rank(ids, id));
    if other < id {
      RankStrict(ids, other, id);
    } else if id < other {
      RankStrict(ids, id, other);
    }
  }

  lemma RankMonotone(small: set<int>, large: set<int>, id: int)
    requires small <= large
    ensures Rank(small, id) <= Rank(large, id)
  {
    SubsetCard(set x | x in small && x < id, set x | x in large && x < id);
  }

  lemma {:induction false} SubsetCard<T>(a: set<T>, b: set<T>)
    requires a <= b
    ensures |a| <= |b|
  {
    if a != {} {
      var x :| x in a;
      SubsetCard(a - {x}, b - {x});
    }
  }

  lemma RankStrict(ids: set<int>, x: int, y: int)
    requires x in ids && x < y
    ensures Rank(ids, x) < Rank(ids, y)
  {
    var below := set k | k in ids && k < x;
    SubsetCard(below + {x}, set k | k in ids && k < y);
  }

  lemma RankRemove(ids: set<int>, gone: int, id: int)
    requires gone in ids
    ensures Rank(ids - {gone}, id) == Rank(ids, id) - if gone < id then 1 else 0
  {
    var before, after := set x | x in ids && x < id, set x | x in ids - {gone} && x < id;
    if gone < id {
      assert after == before - {gone};
    } else {
      assert after == before;
    }
  }
}
