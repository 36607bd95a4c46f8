/** The batching consumer that feeds read counts: a partition's messages are handled in
    batches of at most ten, cut short by timeouts, and marked as consumed. */
module BatchConsumer {
  import opened Tables
  import opened Interactive

  // ---------- The stream ----------

  datatype ReadEvent = ReadEvent(aid: int, uid: int)

  // A message with the event its value decodes to, if it decodes.
  datatype Message = Message(offset: int, event: Option<ReadEvent>)

  // What the receive loop observes until the partition's channel is closed.
  datatype Item = Received(msg: Message) | Timeout

  function Messages(items: seq<Item>): seq<Message> {
    if items == [] then []
    else
      var last := items[|items| - 1];
      Messages(items[..|items| - 1]) + if last.Received? then [last.msg] else []
  }

  function Events(msgs: seq<Message>): seq<ReadEvent> {
    if msgs == [] then []
    else
      var last := msgs[|msgs| - 1];
      Events(msgs[..|msgs| - 1]) + if last.event.Some? then [last.event.value] else []
  }

  // The slice passed on for a batch: a message that decodes is appended twice.
  function Slice(msgs: seq<Message>): seq<Message> {
    if msgs == [] then []
    else
      var last := msgs[|msgs| - 1];
      Slice(msgs[..|msgs| - 1]) + if last.event.Some? then [last, last] else [last]
  }

  // How many of the first n observations are messages, and how many of the first n messages
  // decode.
  function Arrived(items: seq<Item>, n: nat): nat
    requires n <= |items|
  {
    if n == 0 then 0 else Arrived(items, n - 1) + if items[n - 1].Received? then 1 else 0
  }

  function Decodable(msgs: seq<Message>, n: nat): nat
    requires n <= |msgs|
  {
    if n == 0 then 0 else Decodable(msgs, n - 1) + if msgs[n - 1].event.Some? then 1 else 0
  }

  // Only the items before a place matter there.
  lemma {:induction false} ArrivedOfFront(items: seq<Item>, n: nat, k: nat)
    requires k <= n <= |items|
    ensures Arrived(items[..n], k) == Arrived(items, k)
  {
    if k > 0 {
      ArrivedOfFront(items, n, k - 1);
    }
  }

  lemma {:induction false} DecodableOfFront(msgs: seq<Message>, n: nat, k: nat)
    requires k <= n <= |msgs|
    ensures Decodable(msgs[..n], k) == Decodable(msgs, k)
  {
    if k > 0 {
      DecodableOfFront(msgs, n, k - 1);
    }
  }

  /** The messages are those received, each at the place its arrival gives it, and no others. */
  lemma {:induction false} MessagesInOrder(items: seq<Item>, i: nat)
    ensures |Messages(items)| == Arrived(items, |items|)
    ensures i < |items| && items[i].Received? ==>
      Arrived(items, i) < |Messages(items)| && Messages(items)[Arrived(items, i)] == items[i].msg
  {
    if items != [] {
      var n := |items| - 1;
      MessagesInOrder(items[..n], i);
      ArrivedOfFront(items, n, n);
      if i < n {
        ArrivedOfFront(items, n, i);
      }
    }
  }

  /** The events are the values of the messages that decode, as they are and in order. */
  lemma {:induction false} EventsInOrder(msgs: seq<Message>, i: nat)
    ensures |Events(msgs)| == Decodable(msgs, |msgs|)
    ensures i < |msgs| && msgs[i].event.Some? ==>
      Decodable(msgs, i) < |Events(msgs)| && Events(msgs)[Decodable(msgs, i)] == msgs[i].event.value
  {
    if msgs != [] {
      var n := |msgs| - 1;
      EventsInOrder(msgs[..n], i);
      DecodableOfFront(msgs, n, n);
      if i < n {
        DecodableOfFront(msgs, n, i);
      }
    }
  }

  lemma SliceOne(msg: Message)
    ensures Slice([msg]) == if msg.event.Some? then [msg, msg] else [msg]
  {
    assert [msg][..0] == [] && Slice([]) == [];
  }

  // ---------- The handler as a machine ----------

  const BATCH_SIZE := 10

  // A finished batch: the messages it took from the stream.
  datatype Progress = Progress(batches: seq<seq<Message>>, pending: seq<Message>)

  function Flush(p: Progress): Progress {
    Progress(p.batches + [p.pending], [])
  }

  // One observation: a timeout ends the batch, and so does its tenth message.
  function Observe(p: Progress, item: Item): Progress {
    match item
    case Timeout => Flush(p)
    case Received(msg) =>
      var p' := p.(pending := p.pending + [msg]);
      if |p'.pending| < BATCH_SIZE then p' else Flush(p')
  }

  /** A batch ends with a timeout, full or not, or with its tenth message, and with nothing else;
      it then holds all the messages taken since the one before it. */
  lemma BatchEnds(p: Progress, item: Item)
    ensures var p' := Observe(p, item);
            var taken := p.pending + if item.Received? then [item.msg] else [];
            if item.Timeout? || |p.pending| + 1 >= 10
            then p'.batches == p.batches + [taken] && p'.pending == []
            else p'.batches == p.batches && p'.pending == taken
  {
    assert p.pending + [] == p.pending;
  }

  function Run(items: seq<Item>, n: nat): Progress
    requires n <= |items|
  {
    if n == 0 then Progress([], []) else Observe(Run(items, n - 1), items[n - 1])
  }

  function Flat(batches: seq<seq<Message>>): seq<Message> {
    if batches == [] then [] else Flat(batches[..|batches| - 1]) + batches[|batches| - 1]
  }

  // The marks and the handled events of the finished batches, in order.
  function Marks(batches: seq<seq<Message>>): seq<Message> {
    if batches == [] then [] else Marks(batches[..|batches| - 1]) + Slice(batches[|batches| - 1])
  }

  function Handled(batches: seq<seq<Message>>): seq<ReadEvent> {
    if batches == [] then [] else Handled(batches[..|batches| - 1]) + Events(batches[|batches| - 1])
  }

  lemma {:induction false} EventsConcat(a: seq<Message>, b: seq<Message>)
    ensures Events(a + b) == Events(a) + Events(b)
  {
    if b == [] {
      assert a + b == a;
    } else {
      EventsConcat(a, b[..|b| - 1]);
      assert (a + b)[..|a + b| - 1] == a + b[..|b| - 1];
    }
  }

  lemma {:induction false} SliceConcat(a: seq<Message>, b: seq<Message>)
    ensures Slice(a + b) == Slice(a) + Slice(b)
  {
    if b == [] {
      assert a + b == a;
    } else {
      SliceConcat(a, b[..|b| - 1]);
      assert (a + b)[..|a + b| - 1] == a + b[..|b| - 1];
    }
  }

  // Marks and handled events depend on the batches' messages, not on where batches are cut.
  lemma {:induction false} CutsDoNotMatter(batches: seq<seq<Message>>)
    ensures Marks(batches) == Slice(Flat(batches))
    ensures Handled(batches) == Events(Flat(batches))
  {
    if batches != [] {
      var front, last := batches[..|batches| - 1], batches[|batches| - 1];
      CutsDoNotMatter(front);
      EventsConcat(Flat(front), last);
      SliceConcat(Flat(front), last);
    }
  }

  lemma FlatFlush(batches: seq<seq<Message>>, batch: seq<Message>)
    ensures Flat(batches + [batch]) == Flat(batches) + batch
    ensures Marks(batches + [batch]) == Marks(batches) + Slice(batch)
    ensures Handled(batches + [batch]) == Handled(batches) + Events(batch)
  {
    assert (batches + [batch])[..|batches|] == batches;
  }

  // No observation loses, repeats or reorders a message.
  lemma ObserveKeepsAll(p: Progress, item: Item)
    requires |p.pending| < BATCH_SIZE
    ensures var p' := Observe(p, item);
            && Flat(p'.batches) + p'.pending ==
               Flat(p.batches) + p.pending + (if item.Received? then [item.msg] else [])
            && |p'.pending| < BATCH_SIZE
            && (forall b :: b in p'.batches ==> b in p.batches || |b| <= BATCH_SIZE)
  {
    hide Flat;
    FlatFlush(p.batches, p.pending);
    if item.Received? {
      FlatFlush(p.batches, p.pending + [item.msg]);
    }
  }

  lemma {:induction false} NothingSkipped(items: seq<Item>, n: nat)
    requires n <= |items|
    ensures Messages(items[..n]) == Flat(Run(items, n).batches) + Run(items, n).pending
    ensures |Run(items, n).pending| < BATCH_SIZE
    ensures forall b :: b in Run(items, n).batches ==> |b| <= BATCH_SIZE
  {
    hide Observe, Flat;
    if n > 0 {
      NothingSkipped(items, n - 1);
      assert items[..n][..n - 1] == items[..n - 1];
      ObserveKeepsAll(Run(items, n - 1), items[n - 1]);
    } else {
      FlatOfNone();
    }
  }

  lemma FlatOfNone()
    ensures Flat([]) == []
  {
  }

  lemma {:induction false} SliceMarksEach(msgs: seq<Message>, m: Message)
    ensures multiset(Slice(msgs))[m] == multiset(msgs)[m] * if m.event.Some? then 2 else 1
  {
    if msgs != [] {
      var front, last := msgs[..|msgs| - 1], msgs[|msgs| - 1];
      SliceMarksEach(front, m);
      assert msgs == front + [last];
      assert Slice(msgs) == Slice(front) + if last.event.Some? then [last, last] else [last];
      hide Slice;
      assert multiset(msgs)[m] == multiset(front)[m] + if m == last then 1 else 0;
    }
  }

  /** On any stream cut by any timeouts, the marked messages are those of a prefix of the
      received ones, each marked once per time received, or twice if it decodes; fewer than
      ten messages stay unmarked; and the handled events are exactly the decodable messages
      of that prefix, each once and in order. */
  lemma MarkedIsPrefix(items: seq<Item>)
    ensures var p, all := Run(items, |items|), Messages(items);
            var k := |all| - |p.pending|;
            && 0 <= k && |all| < k + BATCH_SIZE
            && Marks(p.batches) == Slice(all[..k])
            && Handled(p.batches) == Events(all[..k])
            && forall m :: multiset(Marks(p.batches))[m] == multiset(all[..k])[m] * if m.event.Some? then 2 else 1
  {
    var p, all := Run(items, |items|), Messages(items);
    assert items[..|items|] == items;
    NothingSkipped(items, |items|);
    CutsDoNotMatter(p.batches);
    assert all[..|all| - |p.pending|] == Flat(p.batches);
    forall m ensures multiset(Marks(p.batches))[m] == multiset(Flat(p.batches))[m] * if m.event.Some? then 2 else 1 {
      SliceMarksEach(Flat(p.batches), m);
    }
  }

  // ---------- Read counts ----------

  function KeysOf(events: seq<ReadEvent>): (keys: seq<Key>)
    ensures |keys| == |events| && forall i :: 0 <= i < |events| ==> keys[i] == Key("article", events[i].aid)
  {
    seq(|events|, i requires 0 <= i < |events| => Key("article", events[i].aid))
  }

  // The statements before the first one to fail.
  function CutAt(keys: seq<Key>, failAt: nat): (written: seq<Key>)
    ensures written <= keys && |written| == if failAt < |keys| then failAt else |keys|
  {
    if failAt < |keys| then keys[..failAt] else keys
  }

  // The reads that reach the tables when batch i stops at its statement failAt(i).
  function Written(batches: seq<seq<Message>>, failAt: nat -> nat): seq<Key> {
    if batches == [] then []
    else
      var i := |batches| - 1;
      Written(batches[..i], failAt) + CutAt(KeysOf(Events(batches[i])), failAt(i))
  }

  function DbAfter(db: Db, keys: seq<Key>): Db {
    ExecAll(db, ReadOps(keys), |keys|)
  }

  lemma {:induction false} ExecAllPrefix(db: Db, ops: seq<Op>, more: seq<Op>, n: nat)
    requires n <= |ops| <= |more| && more[..|ops|] == ops
    ensures ExecAll(db, ops, n) == ExecAll(db, more, n)
  {
    if n > 0 {
      ExecAllPrefix(db, ops, more, n - 1);
      assert more[n - 1] == more[..|ops|][n - 1];
    }
  }

  lemma {:induction false} ExecAllConcat(db: Db, a: seq<Op>, b: seq<Op>, n: nat)
    requires n <= |b|
    ensures ExecAll(db, a + b, |a| + n) == ExecAll(ExecAll(db, a, |a|), b, n)
  {
    hide Exec;
    if n == 0 {
      ExecAllPrefix(db, a, a + b, |a|);
    } else {
      ExecAllConcat(db, a, b, n - 1);
      assert (a + b)[|a| + n - 1] == b[n - 1];
    }
  }

  lemma DbAfterConcat(db: Db, a: seq<Key>, b: seq<Key>)
    ensures DbAfter(db, a + b) == DbAfter(DbAfter(db, a), b)
  {
    assert ReadOps(a + b) == ReadOps(a) + ReadOps(b);
    ExecAllConcat(db, ReadOps(a), ReadOps(b), |b|);
  }

  lemma WrittenFlush(db: Db, batches: seq<seq<Message>>, batch: seq<Message>, failAt: nat -> nat)
    ensures DbAfter(db, Written(batches + [batch], failAt)) ==
            DbAfter(DbAfter(db, Written(batches, failAt)), CutAt(KeysOf(Events(batch)), failAt(|batches|)))
  {
    assert (batches + [batch])[..|batches|] == batches;
    DbAfterConcat(db, Written(batches, failAt), CutAt(KeysOf(Events(batch)), failAt(|batches|)));
  }

  // The session's marks and the tables are those of the finished batches.
  ghost predicate InStep(p: Progress, marked: seq<Message>, data: Db, was: seq<Message>, db0: Db, failAt: nat -> nat) {
    marked == was + Marks(p.batches) && data == DbAfter(db0, Written(p.batches, failAt))
  }

  lemma InStepFlush(p: Progress, batch: seq<Message>, marked: seq<Message>, data: Db,
                    was: seq<Message>, db0: Db, failAt: nat -> nat)
    requires InStep(p, marked, data, was, db0, failAt)
    ensures InStep(Progress(p.batches + [batch], []), marked + Slice(batch),
                   DbAfter(data, CutAt(KeysOf(Events(batch)), failAt(|p.batches|))), was, db0, failAt)
  {
    hide Marks, Written, DbAfter, Slice, Events, KeysOf, CutAt;
    FlatFlush(p.batches, batch);
    WrittenFlush(db0, p.batches, batch, failAt);
  }

  lemma InStepPending(p: Progress, pending: seq<Message>, marked: seq<Message>, data: Db,
                      was: seq<Message>, db0: Db, failAt: nat -> nat)
    requires InStep(p, marked, data, was, db0, failAt)
    ensures InStep(Progress(p.batches, pending), marked, data, was, db0, failAt)
  {
  }

  // No batch loses a statement.
  ghost predicate AllWritten(batches: seq<seq<Message>>, failAt: nat -> nat) {
    forall i :: 0 <= i < |batches| ==> failAt(i) >= |Events(batches[i])|
  }

  lemma {:induction false} WrittenIsHandled(batches: seq<seq<Message>>, failAt: nat -> nat)
    requires AllWritten(batches, failAt)
    ensures Written(batches, failAt) == KeysOf(Handled(batches))
  {
    if batches != [] {
      WrittenIsHandled(batches[..|batches| - 1], failAt);
    }
  }

  /** Every article's read count grows by the number of its reads that reached the tables, and
      nothing else changes but missing rows being inserted. */
  lemma WrittenIsCounted(db: Db, batches: seq<seq<Message>>, failAt: nat -> nat, k: Key)
    ensures var keys := Written(batches, failAt);
            && RowOf(DbAfter(db, keys), k) == RowOf(db, k).(readCnt := RowOf(db, k).readCnt + multiset(keys)[k])
            && DbAfter(db, keys).likes == db.likes && DbAfter(db, keys).collects == db.collects
  {
    var keys := Written(batches, failAt);
    BatchAddsMultiplicity(db, keys, |keys|, k);
    assert keys[..|keys|] == keys;
  }

  // How many messages are reads of this article.
  function ReadsOf(msgs: seq<Message>, aid: int): nat {
    if msgs == [] then 0
    else
      var last := msgs[|msgs| - 1];
      ReadsOf(msgs[..|msgs| - 1], aid) + if last.event.Some? && last.event.value.aid == aid then 1 else 0
  }

  lemma KeysOfMore(events: seq<ReadEvent>, e: ReadEvent)
    ensures KeysOf(events + [e]) == KeysOf(events) + [Key("article", e.aid)]
  {
  }

  // The keys of the messages' events name each article as often as they read it, and nothing
  // that is not an article.
  lemma {:induction false} KeysCountReads(msgs: seq<Message>, k: Key)
    ensures multiset(KeysOf(Events(msgs)))[k] == if k.biz == "article" then ReadsOf(msgs, k.id) else 0
  {
    if msgs != [] {
      var front, last := msgs[..|msgs| - 1], msgs[|msgs| - 1];
      assert msgs == front + [last];
      KeysCountReads(front, k);
      EventsLast(front, last);
      hide Events;
      if last.event.Some? {
        KeysOfMore(Events(front), last.event.value);
      }
    }
  }

  lemma EventsLast(front: seq<Message>, last: Message)
    ensures Events(front + [last]) == if last.event.Some? then Events(front) + [last.event.value] else Events(front)
  {
    assert (front + [last])[..|front|] == front;
  }

  /** With every write succeeding, each article's read count grows by exactly the number of
      marked messages that read it, and no other row's does. */
  lemma ReadCountConserved(db: Db, items: seq<Item>, failAt: nat -> nat, k: Key)
    requires AllWritten(Run(items, |items|).batches, failAt)
    ensures var p, all := Run(items, |items|), Messages(items);
            && |all| >= |p.pending|
            && RowOf(DbAfter(db, Written(p.batches, failAt)), k).readCnt ==
               RowOf(db, k).readCnt
               + if k.biz == "article" then ReadsOf(all[..|all| - |p.pending|], k.id) else 0
  {
    hide *;
    var marked := MarkedPrefix(items);
    var batches := Run(items, |items|).batches;
    WrittenIsHandled(batches, failAt);
    WrittenIsCounted(db, batches, failAt, k);
    KeysCountReads(marked, k);
  }

  lemma MarkedPrefix(items: seq<Item>) returns (marked: seq<Message>)
    ensures |Messages(items)| >= |Run(items, |items|).pending|
    ensures marked == Messages(items)[..|Messages(items)| - |Run(items, |items|).pending|]
    ensures Handled(Run(items, |items|).batches) == Events(marked)
  {
    hide *;
    MarkedIsPrefix(items);
    marked := Messages(items)[..|Messages(items)| - |Run(items, |items|).pending|];
  }

  // ---------- The classes ----------

  class Session {
    var marked: seq<Message>

    constructor ()
      ensures marked == []
    {
      marked := [];
    }

    method MarkMessage(msg: Message)
      modifies this
      ensures marked == old(marked) + [msg]
    {
      marked := marked + [msg];
    }
  }

  class InteractiveReadEventConsumer {
    const dao: GORMInteractiveDAO

    constructor (dao: GORMInteractiveDAO)
      ensures this.dao == dao
    {
      this.dao := dao;
    }

    // The handler function: one read per event.
    method BatchConsume(events: seq<ReadEvent>, failAt: nat) returns (ok: bool)
      modifies dao
      ensures ok <==> failAt >= |events|
      ensures dao.Data() == DbAfter(old(dao.Data()), CutAt(KeysOf(events), failAt))
    {
      var bizs: seq<string>, bizIds: seq<int> := [], [];
      for i := 0 to |events|
        invariant |bizs| == |bizIds| == i
        invariant forall j :: 0 <= j < i ==> bizs[j] == "article" && bizIds[j] == events[j].aid
      {
        bizs := bizs + ["article"];
        bizIds := bizIds + [events[i].aid];
      }
      var r := dao.BatchIncrReadCnt(bizs, bizIds, failAt);
      ok := r == Ok;
      ghost var keys := KeysOf(events);
      assert Zip(bizs, bizIds) == keys;
      if failAt < |keys| {
        assert ReadOps(keys)[..failAt] == ReadOps(keys[..failAt]);
        ExecAllPrefix(old(dao.Data()), ReadOps(keys[..failAt]), ReadOps(keys), failAt);
      }
    }
  }

  class BatchHandler {
    const consumer: InteractiveReadEventConsumer

    constructor (consumer: InteractiveReadEventConsumer)
      ensures this.consumer == consumer
    {
      this.consumer := consumer;
    }

    // Receive one batch, starting at observation at; closed says the channel was closed first.
    method Receive(items: seq<Item>, at: nat)
        returns (batch: seq<Message>, ts: seq<ReadEvent>, next: nat, closed: bool, ghost taken: seq<Message>)
      requires at <= |items| && Run(items, at).pending == []
      ensures at <= next <= |items| && (closed ==> next == |items|) && (!closed ==> at < next)
      ensures batch == Slice(taken) && ts == Events(taken)
      ensures var batches := Run(items, at).batches;
              Run(items, next) == if closed then Progress(batches, taken) else Progress(batches + [taken], [])
    {
      batch, ts, next, closed, taken := [], [], at, false, [];
      ghost var batches := Run(items, at).batches;
      var done, i := false, 0;
      while i < BATCH_SIZE && !done
        invariant at <= next <= |items| && i <= BATCH_SIZE && (done || i > 0 ==> at < next)
        invariant batch == Slice(taken) && ts == Events(taken)
        invariant !done ==> |taken| == i
        invariant Run(items, next) ==
                  if done || i == BATCH_SIZE then Progress(batches + [taken], []) else Progress(batches, taken)
        decreases |items| - next
      {
        i := i + 1;
        if next == |items| {
          closed := true;
          return;
        }
        var item := items[next];
        next := next + 1;
        if item.Timeout? {
          done := true;
        } else {
          SliceConcat(taken, [item.msg]);
          EventsConcat(taken, [item.msg]);
          taken := taken + [item.msg];
          batch := batch + [item.msg];
          if item.msg.event.Some? {
            batch := batch + [item.msg];
            ts := ts + [item.msg.event.value];
          }
        }
      }
    }

    /** The consume loop on a whole stream: what it marks and writes are the machine's marks
        and reads; a failed write is only logged and its batch is marked all the same. */
    method ConsumeClaim(session: Session, items: seq<Item>, failAt: nat -> nat)
      modifies session, consumer.dao
      ensures session.marked == old(session.marked) + Marks(Run(items, |items|).batches)
      ensures consumer.dao.Data() == DbAfter(old(consumer.dao.Data()), Written(Run(items, |items|).batches, failAt))
    {
      var at, calls, closed := 0, 0, false;
      ghost var was, db0 := session.marked, consumer.dao.Data();
      assert InStep(Run(items, 0), session.marked, consumer.dao.Data(), was, db0, failAt);
      while !closed
        invariant at <= |items| && (closed ==> at == |items|)
        invariant !closed ==> Run(items, at).pending == [] && |Run(items, at).batches| == calls
        invariant InStep(Run(items, at), session.marked, consumer.dao.Data(), was, db0, failAt)
        decreases !closed, |items| - at
      {
        hide *;
        at, closed := Round(session, items, at, calls, failAt, was, db0);
        calls := calls + 1;
      }
    }

    // One round of the consume loop.
    method Round(session: Session, items: seq<Item>, at: nat, calls: nat, failAt: nat -> nat,
                 ghost was: seq<Message>, ghost db0: Db) returns (next: nat, closed: bool)
      requires at <= |items| && Run(items, at).pending == [] && |Run(items, at).batches| == calls
      requires InStep(Run(items, at), session.marked, consumer.dao.Data(), was, db0, failAt)
      modifies session, consumer.dao
      ensures at <= next <= |items|
      ensures if closed then next == |items|
              else at < next && Run(items, next).pending == [] && |Run(items, next).batches| == calls + 1
      ensures InStep(Run(items, next), session.marked, consumer.dao.Data(), was, db0, failAt)
    {
      hide *;
      var batch, ts;
      ghost var p, taken := Run(items, at), [];
      ghost var marked, data := session.marked, consumer.dao.Data();
      batch, ts, next, closed, taken := Receive(items, at);
      if closed {
        InStepPending(p, taken, marked, data, was, db0, failAt);
        return;
      }
      Finish(session, batch, ts, failAt(calls));
      InStepFlush(p, taken, marked, data, was, db0, failAt);
    }

    // Hand a batch on, then mark all of it.
    method Finish(session: Session, batch: seq<Message>, ts: seq<ReadEvent>, failAt: nat)
      modifies session, consumer.dao
      ensures session.marked == old(session.marked) + batch
      ensures consumer.dao.Data() == DbAfter(old(consumer.dao.Data()), CutAt(KeysOf(ts), failAt))
    {
      var _ := consumer.BatchConsume(ts, failAt);
      hide *;
      for i := 0 to |batch|
        invariant session.marked == old(session.marked) + batch[..i]
        invariant consumer.dao.Data() == DbAfter(old(consumer.dao.Data()), CutAt(KeysOf(ts), failAt))
      {
        session.MarkMessage(batch[i]);
      }
      assert batch[..|batch|] == batch;
    }
  }
}
