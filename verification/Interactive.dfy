/** The tables behind read, like and collection counts: one counter row per article and one
    record per user and article. */
module Interactive {

  // ---------- Tables ----------

  datatype Key = Key(biz: string, id: int)

  datatype Counters = Counters(readCnt: int, likeCnt: int, collectCnt: int)

  datatype UserKey = UserKey(uid: int, key: Key)

  // The counter rows, the status of each like record, the folder of each collection record.
  datatype Db = Db(rows: map<Key, Counters>, likes: map<UserKey, int>, collects: map<UserKey, int>)

  datatype Op =
    | Read(key: Key)
    | Like(key: Key, uid: int)
    | Cancel(key: Key, uid: int)
    | Collect(key: Key, uid: int, cid: int)

  const ZERO := Counters(0, 0, 0)

  function RowOf(db: Db, k: Key): Counters {
    if k in db.rows then db.rows[k] else ZERO
  }

  // What an operation adds to the counter row.
  function Bump(c: Counters, op: Op): Counters {
    match op
    case Read(_) => c.(readCnt := c.readCnt + 1)
    case Like(_, _) => c.(likeCnt := c.likeCnt + 1)
    case Cancel(_, _) => c.(likeCnt := c.likeCnt - 1)
    case Collect(_, _, _) => c.(collectCnt := c.collectCnt + 1)
  }

  // One committed operation. All but Cancel insert what is missing; Cancel only updates, and
  // a second collection keeps the first folder.
  function Exec(db: Db, op: Op): Db {
    var row := Bump(RowOf(db, op.key), op);
    match op
    case Read(k) => db.(rows := db.rows[k := row])
    case Like(k, uid) => db.(likes := db.likes[UserKey(uid, k) := 1], rows := db.rows[k := row])
    case Cancel(k, uid) =>
      var uk := UserKey(uid, k);
      db.(likes := if uk in db.likes then db.likes[uk := 0] else db.likes,
          rows := if k in db.rows then db.rows[k := row] else db.rows)
    case Collect(k, uid, cid) =>
      var uk := UserKey(uid, k);
      db.(collects := if uk in db.collects then db.collects else db.collects[uk := cid],
          rows := db.rows[k := row])
  }

  // The state after the first n operations.
  function ExecAll(db: Db, ops: seq<Op>, n: nat): Db
    requires n <= |ops|
  {
    if n == 0 then db else Exec(ExecAll(db, ops, n - 1), ops[n - 1])
  }

  // ---------- Likes ----------

  predicate Likes(db: Db, uid: int, k: Key) {
    UserKey(uid, k) in db.likes && db.likes[UserKey(uid, k)] == 1
  }

  function Likers(db: Db, k: Key): (users: set<int>)
    ensures forall u :: u in users <==> Likes(db, u, k)
  {
    set uk | uk in db.likes && uk.key == k && db.likes[uk] == 1 :: uk.uid
  }

  // A user likes an article only if the article has a counter row.
  ghost predicate LikesHaveRows(db: Db) {
    forall u, k :: Likes(db, u, k) ==> k in db.rows
  }

  lemma ExecKeepsRows(db: Db, op: Op)
    requires LikesHaveRows(db)
    ensures LikesHaveRows(Exec(db, op))
    ensures forall k :: k in db.rows ==> k in Exec(db, op).rows
  {
    forall u, k | Likes(Exec(db, op), u, k) ensures k in Exec(db, op).rows {
      assert Likes(db, u, k) || k == op.key;
    }
  }

  lemma {:induction false} ExecAllKeepsRows(db: Db, ops: seq<Op>, n: nat)
    requires n <= |ops| && LikesHaveRows(db)
    ensures LikesHaveRows(ExecAll(db, ops, n))
  {
    if n > 0 {
      ExecAllKeepsRows(db, ops, n - 1);
      ExecKeepsRows(ExecAll(db, ops, n - 1), ops[n - 1]);
    }
  }

  // A like by a user who already likes, and a cancel by one who does not on an article that
  // has a row: both move the counter and leave the set of likers alone.
  predicate ExtraLike(db: Db, op: Op, k: Key) {
    op.Like? && op.key == k && Likes(db, op.uid, k)
  }

  predicate ExtraCancel(db: Db, op: Op, k: Key) {
    op.Cancel? && op.key == k && !Likes(db, op.uid, k) && k in db.rows
  }

  function Drift(db: Db, op: Op, k: Key): int {
    if ExtraLike(db, op, k) then 1 else if ExtraCancel(db, op, k) then -1 else 0
  }

  function TotalDrift(db: Db, ops: seq<Op>, n: nat, k: Key): int
    requires n <= |ops|
  {
    if n == 0 then 0 else TotalDrift(db, ops, n - 1, k) + Drift(ExecAll(db, ops, n - 1), ops[n - 1], k)
  }

  lemma LikersAfter(db: Db, op: Op, k: Key)
    ensures Likers(Exec(db, op), k) ==
            if op.Like? && op.key == k then Likers(db, k) + {op.uid}
            else if op.Cancel? && op.key == k then Likers(db, k) - {op.uid}
            else Likers(db, k)
  {
    var db' := Exec(db, op);
    forall u ensures Likes(db', u, k) <==>
                     (if op.Like? && op.key == k then u == op.uid || Likes(db, u, k)
                      else if op.Cancel? && op.key == k then u != op.uid && Likes(db, u, k)
                      else Likes(db, u, k))
    {
    }
  }

  lemma LikerCountAfter(db: Db, op: Op, k: Key)
    ensures |Likers(Exec(db, op), k)| ==
            if op.Like? && op.key == k && !Likes(db, op.uid, k) then |Likers(db, k)| + 1
            else if op.Cancel? && op.key == k && Likes(db, op.uid, k) then |Likers(db, k)| - 1
            else |Likers(db, k)|
  {
    LikersAfter(db, op, k);
    var likers := Likers(db, k);
    hide Exec;
    if op.key == k && (op.Like? || op.Cancel?) {
      assert op.uid in likers <==> Likes(db, op.uid, k);
      assert op.uid in likers ==> likers + {op.uid} == likers;
      assert op.uid !in likers ==> likers - {op.uid} == likers;
    }
  }

  lemma LikeStep(db: Db, op: Op, k: Key)
    requires LikesHaveRows(db)
    ensures RowOf(Exec(db, op), k).likeCnt - |Likers(Exec(db, op), k)| ==
            RowOf(db, k).likeCnt - |Likers(db, k)| + Drift(db, op, k)
  {
    LikerCountAfter(db, op, k);
    hide Likers;
  }

  /** Like counter against like records, for every run: the counter leaves the number of
      likers by one for each repeated like, and one back for each groundless cancel. */
  lemma {:induction false} LikeDrift(db: Db, ops: seq<Op>, n: nat, k: Key)
    requires n <= |ops| && LikesHaveRows(db)
    ensures RowOf(ExecAll(db, ops, n), k).likeCnt - |Likers(ExecAll(db, ops, n), k)| ==
            RowOf(db, k).likeCnt - |Likers(db, k)| + TotalDrift(db, ops, n, k)
  {
    if n > 0 {
      LikeDrift(db, ops, n - 1, k);
      ExecAllKeepsRows(db, ops, n - 1);
      LikeStep(ExecAll(db, ops, n - 1), ops[n - 1], k);
    }
  }

  // Likes come only from users not liking, cancels only from users who do.
  ghost predicate Guarded(db: Db, ops: seq<Op>, k: Key) {
    forall i :: 0 <= i < |ops| ==>
      !ExtraLike(ExecAll(db, ops, i), ops[i], k) && !ExtraCancel(ExecAll(db, ops, i), ops[i], k)
  }

  lemma {:induction false} GuardedDrift(db: Db, ops: seq<Op>, n: nat, k: Key)
    requires n <= |ops| && Guarded(db, ops, k)
    ensures TotalDrift(db, ops, n, k) == 0
  {
    hide ExecAll, ExtraLike, ExtraCancel;
    if n > 0 {
      GuardedDrift(db, ops, n - 1, k);
    }
  }

  /** The counter equals the number of likers at every point of a run, if and only if no like
      is repeated and no cancel is groundless. */
  lemma LikeCountExact(db: Db, ops: seq<Op>, k: Key)
    requires LikesHaveRows(db) && RowOf(db, k).likeCnt == |Likers(db, k)|
    ensures Guarded(db, ops, k) <==>
            forall n {:trigger ExecAll(db, ops, n)} :: 0 <= n <= |ops| ==>
              RowOf(ExecAll(db, ops, n), k).likeCnt == |Likers(ExecAll(db, ops, n), k)|
  {
    if Guarded(db, ops, k) {
      forall n | 0 <= n <= |ops|
        ensures RowOf(ExecAll(db, ops, n), k).likeCnt == |Likers(ExecAll(db, ops, n), k)|
      {
        LikeDrift(db, ops, n, k);
        GuardedDrift(db, ops, n, k);
      }
    } else {
      var i :| && 0 <= i < |ops|
               && (ExtraLike(ExecAll(db, ops, i), ops[i], k) || ExtraCancel(ExecAll(db, ops, i), ops[i], k));
      LikeDrift(db, ops, i, k);
      LikeDrift(db, ops, i + 1, k);
      assert 0 <= i + 1 <= |ops|;
      assert TotalDrift(db, ops, i + 1, k) != TotalDrift(db, ops, i, k);
    }
  }

  /** A guarded run keeps the counter from going negative. */
  lemma GuardedNonNegative(db: Db, ops: seq<Op>, n: nat, k: Key)
    requires n <= |ops| && LikesHaveRows(db) && RowOf(db, k).likeCnt == |Likers(db, k)|
    requires Guarded(db, ops, k)
    ensures RowOf(ExecAll(db, ops, n), k).likeCnt >= 0
  {
    LikeDrift(db, ops, n, k);
    GuardedDrift(db, ops, n, k);
  }

  /** Liking twice counts twice, though one user likes: the counter is not refreshed only. */
  lemma RepeatedLikeCountsTwice(k: Key, uid: int)
    ensures var db := ExecAll(Db(map[], map[], map[]), [Like(k, uid), Like(k, uid)], 2);
            RowOf(db, k).likeCnt == 2 && Likers(db, k) == {uid}
  {
    var empty := Db(map[], map[], map[]);
    var ops := [Like(k, uid), Like(k, uid)];
    assert ExecAll(empty, ops, 0) == empty;
    var one := ExecAll(empty, ops, 1);
    assert one == Exec(empty, ops[0]);
    assert ExecAll(empty, ops, 2) == Exec(one, ops[1]);
    LikersAfter(empty, ops[0], k);
    LikersAfter(one, ops[1], k);
  }

  // ---------- Reads and collections ----------

  // How many of the first n operations read, or collect, article k.
  function Reads(ops: seq<Op>, n: nat, k: Key): nat
    requires n <= |ops|
  {
    if n == 0 then 0 else Reads(ops, n - 1, k) + if ops[n - 1] == Read(k) then 1 else 0
  }

  function Collections(ops: seq<Op>, n: nat, k: Key): nat
    requires n <= |ops|
  {
    if n == 0 then 0 else Collections(ops, n - 1, k) + if ops[n - 1].Collect? && ops[n - 1].key == k then 1 else 0
  }

  /** Every read and every collection is counted, whatever else runs in between. */
  lemma {:induction false} ReadsAndCollectionsCounted(db: Db, ops: seq<Op>, n: nat, k: Key)
    requires n <= |ops|
    ensures RowOf(ExecAll(db, ops, n), k).readCnt == RowOf(db, k).readCnt + Reads(ops, n, k)
    ensures RowOf(ExecAll(db, ops, n), k).collectCnt == RowOf(db, k).collectCnt + Collections(ops, n, k)
  {
    if n > 0 {
      ReadsAndCollectionsCounted(db, ops, n - 1, k);
    }
  }

  predicate Collects(op: Op, uk: UserKey) {
    op.Collect? && UserKey(op.uid, op.key) == uk
  }

  /** A collection leaves a record for its user, in the earlier folder if there was one, and no
      operation removes or moves a record. */
  lemma CollectionAfter(db: Db, op: Op, uk: UserKey)
    ensures uk in Exec(db, op).collects <==> uk in db.collects || Collects(op, uk)
    ensures uk in Exec(db, op).collects ==>
      Exec(db, op).collects[uk] == if uk in db.collects then db.collects[uk] else op.cid
  {
  }

  // The first of the first n operations that collects for this user and article; n if none does.
  function FirstCollection(ops: seq<Op>, n: nat, uk: UserKey): (i: nat)
    requires n <= |ops|
    ensures i <= n && (i < n ==> Collects(ops[i], uk))
    ensures forall j :: 0 <= j < i ==> !Collects(ops[j], uk)
  {
    if n == 0 then 0
    else
      var i := FirstCollection(ops, n - 1, uk);
      if i < n - 1 || Collects(ops[n - 1], uk) then i else n
  }

  /** In every run a record exists exactly for those who had one or collected, in the folder they
      had or the one of their first collection. */
  lemma {:induction false} CollectionRecords(db: Db, ops: seq<Op>, n: nat, uk: UserKey)
    requires n <= |ops|
    ensures var i, after := FirstCollection(ops, n, uk), ExecAll(db, ops, n).collects;
            && (uk in after <==> uk in db.collects || i < n)
            && (uk in after ==> after[uk] == if uk in db.collects then db.collects[uk] else ops[i].cid)
  {
    if n > 0 {
      CollectionRecords(db, ops, n - 1, uk);
      CollectionAfter(ExecAll(db, ops, n - 1), ops[n - 1], uk);
      hide Exec;
    }
  }

  // The reads a batch stands for.
  function ReadOps(keys: seq<Key>): (ops: seq<Op>)
    ensures |ops| == |keys| && forall i :: 0 <= i < |keys| ==> ops[i] == Read(keys[i])
  {
    seq(|keys|, i requires 0 <= i < |keys| => Read(keys[i]))
  }

  lemma {:induction false} ReadsAreMultiplicity(keys: seq<Key>, n: nat, k: Key)
    requires n <= |keys|
    ensures Reads(ReadOps(keys), n, k) == multiset(keys[..n])[k]
  {
    if n > 0 {
      ReadsAreMultiplicity(keys, n - 1, k);
      assert keys[..n] == keys[..n - 1] + [keys[n - 1]];
    }
  }

  lemma {:induction false} ReadsTouchReads(db: Db, keys: seq<Key>, n: nat, k: Key)
    requires n <= |keys|
    ensures ExecAll(db, ReadOps(keys), n).likes == db.likes && ExecAll(db, ReadOps(keys), n).collects == db.collects
    ensures RowOf(ExecAll(db, ReadOps(keys), n), k).likeCnt == RowOf(db, k).likeCnt
    ensures RowOf(ExecAll(db, ReadOps(keys), n), k).collectCnt == RowOf(db, k).collectCnt
    ensures k in ExecAll(db, ReadOps(keys), n).rows <==> k in db.rows || k in keys[..n]
  {
    if n > 0 {
      ReadsTouchReads(db, keys, n - 1, k);
      assert keys[..n] == keys[..n - 1] + [keys[n - 1]];
    }
  }

  /** A batch of n reads adds to each article's read count its multiplicity in the batch, and
      changes nothing else but inserting the rows that were missing. */
  lemma BatchAddsMultiplicity(db: Db, keys: seq<Key>, n: nat, k: Key)
    requires n <= |keys|
    ensures var after := ExecAll(db, ReadOps(keys), n);
            && RowOf(after, k) == RowOf(db, k).(readCnt := RowOf(db, k).readCnt + multiset(keys[..n])[k])
            && (k in after.rows <==> k in db.rows || k in keys[..n])
            && after.likes == db.likes && after.collects == db.collects
  {
    ReadsAndCollectionsCounted(db, ReadOps(keys), n, k);
    ReadsAreMultiplicity(keys, n, k);
    ReadsTouchReads(db, keys, n, k);
  }

  // ---------- The access object ----------

  datatype Status = Ok | DbError | IndexPanic

  datatype Result<T> = Got(value: T) | NotFound | QueryFailed

  // Pairs up the two argument lists as far as both go.
  function Zip(bizs: seq<string>, ids: seq<int>): (keys: seq<Key>)
    ensures |keys| == if |bizs| <= |ids| then |bizs| else |ids|
    ensures forall i :: 0 <= i < |keys| ==> keys[i] == Key(bizs[i], ids[i])
  {
    var n := if |bizs| <= |ids| then |bizs| else |ids|;
    seq(n, i requires 0 <= i < |bizs| && i < |ids| => Key(bizs[i], ids[i]))
  }

  // How many statements of a batch succeed when statement failAt is the first to fail.
  function Committed(bizs: seq<string>, ids: seq<int>, failAt: nat): (n: nat)
    ensures n <= |bizs| && n <= |ids| && n <= failAt && (n == |bizs| || n == |ids| || n == failAt)
  {
    if failAt < |Zip(bizs, ids)| then failAt else |Zip(bizs, ids)|
  }

  function BatchStatus(bizs: seq<string>, ids: seq<int>, failAt: nat): Status {
    if failAt < |Zip(bizs, ids)| then DbError else if |ids| < |bizs| then IndexPanic else Ok
  }

  class GORMInteractiveDAO {
    var rows: map<Key, Counters>
    var likes: map<UserKey, int>
    var collects: map<UserKey, int>

    function Data(): Db
      reads this
    {
      Db(rows, likes, collects)
    }

    constructor ()
      ensures Data() == Db(map[], map[], map[])
    {
      rows, likes, collects := map[], map[], map[];
    }

    method IncrReadCnt(biz: string, bizId: int, stmtOk: bool) returns (ok: bool)
      modifies this
      ensures ok <==> stmtOk
      ensures Data() == if ok then Exec(old(Data()), Read(Key(biz, bizId))) else old(Data())
      ensures likes == old(likes) && collects == old(collects)
      ensures ok ==>
        var k := Key(biz, bizId);
        rows == old(rows)[k := if k in old(rows) then old(rows)[k].(readCnt := old(rows)[k].readCnt + 1)
                               else Counters(1, 0, 0)]
    {
      if !stmtOk {
        return false;
      }
      var k := Key(biz, bizId);
      if k in rows {
        rows := rows[k := rows[k].(readCnt := rows[k].readCnt + 1)];
      } else {
        rows := rows[k := Counters(1, 0, 0)];
      }
      ok := true;
    }

    // Both statements in one transaction.
    method InsertLikeInfo(biz: string, id: int, uid: int, recordOk: bool, counterOk: bool) returns (ok: bool)
      modifies this
      ensures ok <==> recordOk && counterOk
      ensures Data() == if ok then Exec(old(Data()), Like(Key(biz, id), uid)) else old(Data())
      ensures ok ==>
        var k := Key(biz, id);
        && likes == old(likes)[UserKey(uid, k) := 1] && collects == old(collects)
        && rows == old(rows)[k := if k in old(rows) then old(rows)[k].(likeCnt := old(rows)[k].likeCnt + 1)
                                  else Counters(0, 1, 0)]
    {
      if !recordOk {
        return false;
      }
      var k, before := Key(biz, id), likes;
      likes := likes[UserKey(uid, k) := 1];
      if !counterOk {
        likes := before;
        return false;
      }
      if k in rows {
        rows := rows[k := rows[k].(likeCnt := rows[k].likeCnt + 1)];
      } else {
        rows := rows[k := Counters(0, 1, 0)];
      }
      ok := true;
    }

    method DeleteLikeInfo(biz: string, id: int, uid: int, recordOk: bool, counterOk: bool) returns (ok: bool)
      modifies this
      ensures ok <==> recordOk && counterOk
      ensures Data() == if ok then Exec(old(Data()), Cancel(Key(biz, id), uid)) else old(Data())
      ensures ok ==>
        var k := Key(biz, id);
        && likes == (if UserKey(uid, k) in old(likes) then old(likes)[UserKey(uid, k) := 0] else old(likes))
        && collects == old(collects)
        && rows == if k in old(rows) then old(rows)[k := old(rows)[k].(likeCnt := old(rows)[k].likeCnt - 1)]
                   else old(rows)
    {
      if !recordOk {
        return false;
      }
      var k, before := Key(biz, id), likes;
      if UserKey(uid, k) in likes {
        likes := likes[UserKey(uid, k) := 0];
      }
      if !counterOk {
        likes := before;
        return false;
      }
      if k in rows {
        rows := rows[k := rows[k].(likeCnt := rows[k].likeCnt - 1)];
      }
      ok := true;
    }

    method InsertCollectionBiz(biz: string, id: int, uid: int, cid: int, recordOk: bool, counterOk: bool)
        returns (ok: bool)
      modifies this
      ensures ok <==> recordOk && counterOk
      ensures Data() == if ok then Exec(old(Data()), Collect(Key(biz, id), uid, cid)) else old(Data())
      ensures ok ==>
        var k, uk := Key(biz, id), UserKey(uid, Key(biz, id));
        && uk in collects && collects[uk] == (if uk in old(collects) then old(collects)[uk] else cid)
        && collects - {uk} == old(collects) - {uk} && likes == old(likes)
        && rows == old(rows)[k := if k in old(rows) then old(rows)[k].(collectCnt := old(rows)[k].collectCnt + 1)
                                  else Counters(0, 0, 1)]
    {
      if !recordOk {
        return false;
      }
      var k, before := Key(biz, id), collects;
      if UserKey(uid, k) !in collects {
        collects := collects[UserKey(uid, k) := cid];
      }
      if !counterOk {
        collects := before;
        return false;
      }
      if k in rows {
        rows := rows[k := rows[k].(collectCnt := rows[k].collectCnt + 1)];
      } else {
        rows := rows[k := Counters(0, 0, 1)];
      }
      ok := true;
    }

    // Statement by statement: a failure leaves the statements before it in place.
    method BatchIncrReadCnt(bizs: seq<string>, ids: seq<int>, failAt: nat) returns (r: Status)
      modifies this
      ensures r == BatchStatus(bizs, ids, failAt)
      ensures r == Ok <==> failAt >= |bizs| && |ids| >= |bizs|
      ensures r == DbError <==> failAt < |bizs| && failAt < |ids|
      ensures Data() == ExecAll(old(Data()), ReadOps(Zip(bizs, ids)), Committed(bizs, ids, failAt))
    {
      var i := 0;
      ghost var ops := ReadOps(Zip(bizs, ids));
      while i < |bizs|
        invariant 0 <= i <= Committed(bizs, ids, failAt)
        invariant Data() == ExecAll(old(Data()), ops, i)
      {
        if i >= |ids| {
          return IndexPanic;
        }
        assert ops[i] == Read(Key(bizs[i], ids[i]));
        var ok := IncrReadCnt(bizs[i], ids[i], i != failAt);
        if !ok {
          return DbError;
        }
        i := i + 1;
      }
      r := Ok;
    }

    // In one transaction: a failure or a panic leaves nothing.
    method BatchIncrReadCntV1(bizs: seq<string>, ids: seq<int>, failAt: nat) returns (r: Status)
      modifies this
      ensures r == BatchStatus(bizs, ids, failAt)
      ensures Data() == if r.Ok? then ExecAll(old(Data()), ReadOps(Zip(bizs, ids)), |bizs|) else old(Data())
    {
      var before := rows;
      r := BatchIncrReadCnt(bizs, ids, failAt);
      ReadsTouchReads(old(Data()), Zip(bizs, ids), Committed(bizs, ids, failAt), Key("", 0));
      if r != Ok {
        rows := before;
      }
    }

    method GetLikeInfo(biz: string, id: int, uid: int, dbOk: bool) returns (r: Result<UserKey>)
      ensures r == if !dbOk then QueryFailed
                   else if uid in Likers(Data(), Key(biz, id)) then Got(UserKey(uid, Key(biz, id)))
                   else NotFound
    {
      if !dbOk {
        return QueryFailed;
      }
      var uk := UserKey(uid, Key(biz, id));
      r := if uk in likes && likes[uk] == 1 then Got(uk) else NotFound;
      assert uid in Likers(Data(), Key(biz, id)) <==> Likes(Data(), uid, Key(biz, id));
    }

    method Get(biz: string, id: int, dbOk: bool) returns (r: Result<Counters>)
      ensures r == if !dbOk then QueryFailed
                   else if Key(biz, id) in rows then Got(rows[Key(biz, id)])
                   else NotFound
    {
      if !dbOk {
        return QueryFailed;
      }
      var k := Key(biz, id);
      r := if k in rows then Got(rows[k]) else NotFound;
    }
  }
}
