/** Streaming selection of the n best-scored articles from a paged listing, through a
    bounded priority queue whose head is the smallest score. */
module Ranking {

  datatype Article = Article(id: int, utime: int)

  datatype Scored = Scored(score: real, art: Article)

  // ---------- What a selection must be ----------

  // kept is some n of the seen articles, or all if fewer, none scoring below one left out.
  ghost predicate IsTop(kept: multiset<Scored>, seen: multiset<Scored>, n: nat) {
    && kept <= seen
    && |kept| == (if |seen| < n then |seen| else n)
    && forall k, d :: k in kept && d in seen - kept ==> d.score <= k.score
  }

  ghost predicate IsLeast(least: Scored, items: multiset<Scored>) {
    least in items && forall x :: x in items ==> least.score <= x.score
  }

  // With room left nothing has been discarded yet.
  lemma OfferWithRoom(kept: multiset<Scored>, seen: multiset<Scored>, n: nat, e: Scored)
    requires IsTop(kept, seen, n) && |kept| < n
    ensures IsTop(kept + multiset{e}, seen + multiset{e}, n)
  {
    assert |seen - kept| == |seen| - |kept| == 0;
    assert seen == kept + (seen - kept);
    assert seen - kept == multiset{};
    assert (seen + multiset{e}) - (kept + multiset{e}) == multiset{};
  }

  // When full, the least kept article gives way to a better one, and only then.
  lemma OfferWhenFull(kept: multiset<Scored>, seen: multiset<Scored>, n: nat, least: Scored, e: Scored)
    requires IsTop(kept, seen, n) && |kept| == n && IsLeast(least, kept)
    ensures least.score < e.score ==> IsTop(kept - multiset{least} + multiset{e}, seen + multiset{e}, n)
    ensures least.score >= e.score ==> IsTop(kept, seen + multiset{e}, n)
  {
    var seen' := seen + multiset{e};
    if least.score < e.score {
      var kept' := kept - multiset{least} + multiset{e};
      assert seen' - kept' == (seen - kept) + multiset{least};
      forall k, d | k in kept' && d in seen' - kept' ensures d.score <= k.score {
        assert k == e || k in kept;
        assert d == least || d in seen - kept;
      }
    } else {
      assert seen' - kept == (seen - kept) + multiset{e};
      forall k, d | k in kept && d in seen' - kept ensures d.score <= k.score {
        assert d == e || d in seen - kept;
      }
    }
  }

  // ---------- The bounded priority queue ----------

  // Enqueue refuses when full; Dequeue removes an element of least score.
  class PriorityQueue {
    const capacity: nat
    var items: seq<Scored>

    ghost function Items(): multiset<Scored>
      reads this
    {
      multiset(items)
    }

    constructor (capacity: nat)
      ensures this.capacity == capacity && items == []
    {
      this.capacity, items := capacity, [];
    }

    method Enqueue(e: Scored) returns (ok: bool)
      modifies this
      ensures ok <==> |old(Items())| < capacity
      ensures Items() == if ok then old(Items()) + multiset{e} else old(Items())
    {
      ok := |items| < capacity;
      if ok {
        items := items + [e];
      }
    }

    method Len() returns (k: nat)
      ensures k == |Items()|
    {
      k := |items|;
    }

    method Dequeue() returns (least: Scored)
      requires Items() != multiset{}
      modifies this
      ensures IsLeast(least, old(Items()))
      ensures Items() == old(Items()) - multiset{least}
    {
      var m := 0;
      for i := 1 to |items|
        invariant 0 <= m < |items|
        invariant forall j :: 0 <= j < i ==> items[m].score <= items[j].score
      {
        if items[i].score < items[m].score {
          m := i;
        }
      }
      least := items[m];
      assert items == items[..m] + [least] + items[m + 1..];
      items := items[..m] + items[m + 1..];
    }
  }

  // ---------- Reading the listing ----------

  // The page at an offset: fewer than batch articles only at the end of the listing.
  function PageOf(listing: seq<Article>, offset: nat, batch: nat): (page: seq<Article>)
    requires offset <= |listing|
    ensures |page| == if offset + batch <= |listing| then batch else |listing| - offset
  {
    if offset + batch <= |listing| then listing[offset..offset + batch] else listing[offset..]
  }

  // How many articles are read: a short page, or one ending in an article too old, is last.
  function ReadFrom(listing: seq<Article>, offset: nat, batch: nat, ddl: int): (end: nat)
    requires offset <= |listing| && batch > 0
    ensures offset <= end <= |listing|
    decreases |listing| - offset
  {
    var page := PageOf(listing, offset, batch);
    if |page| < batch || page[|page| - 1].utime < ddl then offset + |page|
    else ReadFrom(listing, offset + |page|, batch, ddl)
  }

  // How many pages are read.
  function Pages(listing: seq<Article>, offset: nat, batch: nat, ddl: int): (n: nat)
    requires offset <= |listing| && batch > 0
    ensures 1 <= n <= |listing| - offset + 1
    decreases |listing| - offset
  {
    var page := PageOf(listing, offset, batch);
    if |page| < batch || page[|page| - 1].utime < ddl then 1
    else 1 + Pages(listing, offset + |page|, batch, ddl)
  }

  // What one round of the paging loop reads, and whether it goes on.
  lemma ReadFromStep(listing: seq<Article>, offset: nat, batch: nat, ddl: int)
    requires offset <= |listing| && batch > 0
    ensures var page := PageOf(listing, offset, batch);
            && offset + |page| <= |listing| && |page| <= batch
            && ReadFrom(listing, offset, batch, ddl) ==
               (if |page| < batch || page[|page| - 1].utime < ddl then offset + |page|
                else ReadFrom(listing, offset + |page|, batch, ddl))
            && Pages(listing, offset, batch, ddl) ==
               (if |page| < batch || page[|page| - 1].utime < ddl then 1
                else 1 + Pages(listing, offset + |page|, batch, ddl))
  {
    hide PageOf;
  }

  lemma PageAppends(listing: seq<Article>, offset: nat, batch: nat)
    requires offset <= |listing|
    ensures var page := PageOf(listing, offset, batch);
            offset + |page| <= |listing| && listing[..offset] + page == listing[..offset + |page|]
  {
  }

  // Where the page boundaries lie.
  function Boundary(offset: nat, batch: nat, pages: nat): nat {
    if pages == 0 then offset else Boundary(offset, batch, pages - 1) + batch
  }

  lemma {:induction false} BoundaryShift(offset: nat, batch: nat, pages: nat)
    ensures Boundary(offset + batch, batch, pages) == Boundary(offset, batch, pages + 1)
  {
    if pages > 0 {
      BoundaryShift(offset, batch, pages - 1);
    }
  }

  // A full page at this boundary that ends in an article not older than the deadline.
  ghost predicate GoesOn(listing: seq<Article>, offset: nat, batch: nat, ddl: int, page: nat) {
    var end := Boundary(offset, batch, page + 1);
    end <= |listing| && 0 < end && listing[end - 1].utime >= ddl
  }

  lemma GoesOnShift(listing: seq<Article>, offset: nat, batch: nat, ddl: int, page: nat)
    ensures GoesOn(listing, offset + batch, batch, ddl, page) <==> GoesOn(listing, offset, batch, ddl, page + 1)
  {
    BoundaryShift(offset, batch, page + 1);
  }

  // n pages are read, up to end: each before the last goes on, and the last does not.
  ghost predicate StopsAfter(listing: seq<Article>, offset: nat, batch: nat, ddl: int, n: nat, end: nat) {
    && n >= 1
    && (forall page: nat :: page < n - 1 ==> GoesOn(listing, offset, batch, ddl, page))
    && !GoesOn(listing, offset, batch, ddl, n - 1)
    && end == if Boundary(offset, batch, n) <= |listing| then Boundary(offset, batch, n) else |listing|
  }

  lemma StopsLater(listing: seq<Article>, offset: nat, batch: nat, ddl: int, n: nat, end: nat)
    requires GoesOn(listing, offset, batch, ddl, 0)
    requires StopsAfter(listing, offset + batch, batch, ddl, n, end)
    ensures StopsAfter(listing, offset, batch, ddl, n + 1, end)
  {
    hide GoesOn, Boundary;
    BoundaryShift(offset, batch, n);
    GoesOnShift(listing, offset, batch, ddl, n - 1);
    forall page: nat | page < n ensures GoesOn(listing, offset, batch, ddl, page) {
      if page > 0 {
        GoesOnShift(listing, offset, batch, ddl, page - 1);
      }
    }
  }

  lemma FirstPage(listing: seq<Article>, offset: nat, batch: nat, ddl: int)
    requires offset <= |listing| && batch > 0
    ensures var page := PageOf(listing, offset, batch);
            && (GoesOn(listing, offset, batch, ddl, 0) <==> |page| == batch && page[|page| - 1].utime >= ddl)
            && offset + |page| == (if Boundary(offset, batch, 1) <= |listing| then Boundary(offset, batch, 1)
                                   else |listing|)
            && |page| <= batch
  {
    assert Boundary(offset, batch, 0) == offset;
    assert Boundary(offset, batch, 1) == offset + batch;
  }

  /** Reading goes on from page to page as long as each is full and ends in an article not older
      than the deadline, and stops at the first that is short, with the listing, or old. */
  lemma {:induction false} ReadingStops(listing: seq<Article>, offset: nat, batch: nat, ddl: int)
    requires offset <= |listing| && batch > 0
    ensures StopsAfter(listing, offset, batch, ddl, Pages(listing, offset, batch, ddl),
                       ReadFrom(listing, offset, batch, ddl))
    decreases |listing| - offset
  {
    hide *;
    ReadFromStep(listing, offset, batch, ddl);
    FirstPage(listing, offset, batch, ddl);
    var page := PageOf(listing, offset, batch);
    if GoesOn(listing, offset, batch, ddl, 0) {
      var next := offset + batch;
      ReadingStops(listing, next, batch, ddl);
      StopsLater(listing, offset, batch, ddl, Pages(listing, next, batch, ddl), ReadFrom(listing, next, batch, ddl));
    } else {
      StopsNow(listing, offset, batch, ddl, offset + |page|);
    }
  }

  lemma StopsNow(listing: seq<Article>, offset: nat, batch: nat, ddl: int, end: nat)
    requires !GoesOn(listing, offset, batch, ddl, 0)
    requires end == if Boundary(offset, batch, 1) <= |listing| then Boundary(offset, batch, 1) else |listing|
    ensures StopsAfter(listing, offset, batch, ddl, 1, end)
  {
  }

  /** Of a newest-first listing, every article not older than the deadline is read. */
  lemma {:induction false} RecentAreRead(listing: seq<Article>, offset: nat, batch: nat, ddl: int, i: nat)
    requires offset <= |listing| && batch > 0 && i < |listing|
    requires forall a, b :: 0 <= a < b < |listing| ==> listing[a].utime >= listing[b].utime
    requires listing[i].utime >= ddl
    ensures i < ReadFrom(listing, offset, batch, ddl)
    decreases |listing| - offset
  {
    var page := PageOf(listing, offset, batch);
    ReadFromStep(listing, offset, batch, ddl);
    if |page| == batch {
      assert page[|page| - 1] == listing[offset + batch - 1];
      hide PageOf, ReadFrom;
      if page[|page| - 1].utime >= ddl {
        RecentAreRead(listing, offset + batch, batch, ddl, i);
      }
    }
  }

  // The articles with their scores, as a multiset.
  function ScoreAll(arts: seq<Article>, score: Article -> real): multiset<Scored> {
    if arts == [] then multiset{} else multiset{Scored(score(arts[0]), arts[0])} + ScoreAll(arts[1..], score)
  }

  lemma {:induction false} ScoreAllAppend(arts: seq<Article>, art: Article, score: Article -> real)
    ensures ScoreAll(arts + [art], score) == ScoreAll(arts, score) + multiset{Scored(score(art), art)}
  {
    if arts == [] {
      assert arts + [art] == [art];
    } else {
      assert (arts + [art])[1..] == arts[1..] + [art];
      ScoreAllAppend(arts[1..], art, score);
    }
  }

  ghost predicate Descending(arts: seq<Article>, score: Article -> real) {
    forall i, j :: 0 <= i < j < |arts| ==> score(arts[i]) >= score(arts[j])
  }

  // ---------- The service ----------

  datatype Outcome = Returned(arts: seq<Article>) | QueryFailed | IndexPanic

  class BatchRankingService {
    const batchSize: nat
    const n: nat

    constructor ()
      ensures batchSize == 100 && n == 100
    {
      batchSize, n := 100, 100;
    }

    // Offer one article to the queue.
    method Offer(q: PriorityQueue, e: Scored, ghost seen: multiset<Scored>)
      requires q.capacity > 0 && IsTop(q.Items(), seen, q.capacity)
      modifies q
      ensures IsTop(q.Items(), seen + multiset{e}, q.capacity)
      ensures |old(q.Items())| < q.capacity ==> q.Items() == old(q.Items()) + multiset{e}
      ensures |old(q.Items())| == q.capacity && (forall x :: x in old(q.Items()) ==> e.score <= x.score) ==>
        q.Items() == old(q.Items())
      ensures |old(q.Items())| == q.capacity && (exists x :: x in old(q.Items()) && x.score < e.score) ==>
        exists x :: IsLeast(x, old(q.Items())) && q.Items() == old(q.Items()) - multiset{x} + multiset{e}
    {
      ghost var kept := q.Items();
      var ok := q.Enqueue(e);
      if ok {
        OfferWithRoom(kept, seen, q.capacity, e);
      } else {
        var minEle := q.Dequeue();
        OfferWhenFull(kept, seen, q.capacity, minEle, e);
        if minEle.score < e.score {
          var _ := q.Enqueue(e);
        } else {
          var _ := q.Enqueue(minEle);
          assert kept - multiset{minEle} + multiset{minEle} == kept;
        }
      }
    }

    // Offer a page's articles in order.
    method OfferPage(q: PriorityQueue, arts: seq<Article>, score: Article -> real, ghost read: seq<Article>)
      requires q.capacity > 0 && IsTop(q.Items(), ScoreAll(read, score), q.capacity)
      modifies q
      ensures IsTop(q.Items(), ScoreAll(read + arts, score), q.capacity)
    {
      hide IsTop, ScoreAll;
      ghost var done := read;
      for i := 0 to |arts|
        invariant done == read + arts[..i]
        invariant IsTop(q.Items(), ScoreAll(done, score), q.capacity)
      {
        ScoreAllAppend(done, arts[i], score);
        Offer(q, Scored(score(arts[i]), arts[i]), ScoreAll(done, score));
        done := done + [arts[i]];
      }
      assert done == read + arts;
    }

    // One round of the paging loop: read a page, offer it, move the offset on.
    method Round(q: PriorityQueue, listing: seq<Article>, score: Article -> real, ddl: int, offset: nat,
                 ghost read: seq<Article>) returns (offset': nat, stop: bool, ghost read': seq<Article>)
      requires batchSize > 0 && q.capacity > 0 && offset <= |listing| && read == listing[..offset]
      requires IsTop(q.Items(), ScoreAll(read, score), q.capacity)
      modifies q
      ensures offset <= offset' <= |listing| && (offset' > offset || stop) && read' == listing[..offset']
      ensures IsTop(q.Items(), ScoreAll(read', score), q.capacity)
      ensures ReadFrom(listing, offset, batchSize, ddl) ==
              if stop then offset' else ReadFrom(listing, offset', batchSize, ddl)
      ensures Pages(listing, offset, batchSize, ddl) ==
              if stop then 1 else 1 + Pages(listing, offset', batchSize, ddl)
    {
      hide *;
      var arts := PageOf(listing, offset, batchSize);
      ReadFromStep(listing, offset, batchSize, ddl);
      PageAppends(listing, offset, batchSize);
      read' := read + arts;
      offset' := offset + |arts|;
      stop := |arts| < batchSize || arts[|arts| - 1].utime < ddl;
      OfferPage(q, arts, score, read);
    }

    /** The paging loop reads each article of a stable listing at most once, up to where
        ReadFrom says, and keeps a top selection of exactly those, unless the query of a
        page it reads fails: then there is no selection. */
    method Select(listing: seq<Article>, score: Article -> real, ddl: int, failAt: nat)
        returns (q: PriorityQueue, failed: bool)
      requires batchSize > 0 && n > 0
      ensures failed <==> failAt < Pages(listing, 0, batchSize, ddl)
      ensures fresh(q) && q.capacity == n
      ensures !failed ==>
        IsTop(q.Items(), ScoreAll(listing[..ReadFrom(listing, 0, batchSize, ddl)], score), n)
    {
      q := new PriorityQueue(n);
      var offset, stop, pages := 0, false, 0;
      failed := false;
      ghost var read, end := listing[..0], ReadFrom(listing, 0, batchSize, ddl);
      ghost var all := Pages(listing, 0, batchSize, ddl);
      assert IsTop(q.Items(), ScoreAll(read, score), n);
      hide *;
      while !stop && !failed
        invariant offset <= |listing| && read == listing[..offset]
        invariant IsTop(q.Items(), ScoreAll(read, score), n)
        invariant end == if stop then offset else ReadFrom(listing, offset, batchSize, ddl)
        invariant all == if stop then pages else pages + Pages(listing, offset, batchSize, ddl)
        invariant if failed then failAt == pages && !stop else failAt >= pages
        decreases if stop || failed then 0 else 1, |listing| - offset
      {
        if pages == failAt {
          failed := true;
        } else {
          offset, stop, read := Round(q, listing, score, ddl, offset, read);
          pages := pages + 1;
        }
      }
    }

    /** The drain loop as it stands counts its index up: it writes the last slot, then one
        past the end, so it panics exactly when anything was selected. */
    method DrainAsWritten(q: PriorityQueue) returns (r: Outcome)
      modifies q
      ensures if old(q.Items()) != multiset{} then r == IndexPanic else r == Returned([])
    {
      var size: int := q.Len();
      var res := new Article[size](_ => Article(0, 0));
      var i: int := size - 1;
      while i >= 0
        invariant i == -1 <==> size == 0
        invariant size > 0 ==> size - 1 <= i <= size
        decreases size - i
      {
        var art := Article(0, 0);
        var left := q.Len();
        if left > 0 {
          var ele := q.Dequeue();
          art := ele.art;
        }
        if i >= res.Length {
          return IndexPanic;
        }
        res[i] := art;
        i := i + 1;
      }
      r := Returned(res[..]);
    }

    /** Counting down instead, the drain yields the whole selection, best score first. */
    method DrainDescending(q: PriorityQueue, score: Article -> real) returns (arts: seq<Article>)
      requires ScoredBy(q.Items(), score)
      modifies q
      ensures ScoreAll(arts, score) == old(q.Items())
      ensures Descending(arts, score)
    {
      var size: int := q.Len();
      var res := new Article[size](_ => Article(0, 0));
      var i: int := size - 1;
      ghost var all, tail := q.Items(), res[size..];
      assert Drained(all, tail, all, score);
      hide *;
      while i >= 0
        invariant -1 <= i < res.Length && |q.Items()| == i + 1 && tail == res[i + 1..]
        invariant Drained(q.Items(), tail, all, score)
      {
        tail := DrainOne(q, res, i, tail, all, score);
        i := i - 1;
      }
      arts := res[..];
      assert q.Items() == multiset{} && tail == arts;
      DrainEnd(tail, all, score);
    }

    // One round of the drain.
    method DrainOne(q: PriorityQueue, res: array<Article>, i: nat, ghost tail: seq<Article>,
                    ghost all: multiset<Scored>, score: Article -> real) returns (ghost tail': seq<Article>)
      requires i < res.Length && |q.Items()| == i + 1 && tail == res[i + 1..]
      requires Drained(q.Items(), tail, all, score)
      modifies q, res
      ensures |q.Items()| == i && tail' == res[i..]
      ensures Drained(q.Items(), tail', all, score)
    {
      ghost var items := q.Items();
      var ele := q.Dequeue();
      hide *;
      DrainStep(items, ele, tail, all, score);
      tail' := Place(res, i, ele.art, tail);
    }

    method Place(res: array<Article>, i: nat, art: Article, ghost tail: seq<Article>)
        returns (ghost tail': seq<Article>)
      requires i < res.Length && tail == res[i + 1..]
      modifies res
      ensures tail' == [art] + tail == res[i..]
    {
      res[i] := art;
      tail' := res[i..];
    }

    /** The whole selection as written: an error exactly when a page's query fails, and
        otherwise a panic exactly when anything is listed. */
    method TopN(listing: seq<Article>, score: Article -> real, ddl: int, failAt: nat) returns (r: Outcome)
      requires batchSize > 0 && n > 0
      ensures r.QueryFailed? <==> failAt < Pages(listing, 0, batchSize, ddl)
      ensures r.IndexPanic? <==> listing != [] && !r.QueryFailed?
      ensures r.Returned? ==> r.arts == []
    {
      var q, failed := Select(listing, score, ddl, failAt);
      if failed {
        return QueryFailed;
      }
      ghost var read := listing[..ReadFrom(listing, 0, batchSize, ddl)];
      ScoreAllSize(read, score);
      assert listing != [] <==> read != [];
      r := DrainAsWritten(q);
    }

    /** The whole selection with the drain counting down: the best n of the articles read,
        in descending order. */
    method TopNDescending(listing: seq<Article>, score: Article -> real, ddl: int, failAt: nat) returns (r: Outcome)
      requires batchSize > 0 && n > 0
      ensures r.QueryFailed? <==> failAt < Pages(listing, 0, batchSize, ddl)
      ensures !r.QueryFailed? ==>
        && r.Returned? && Descending(r.arts, score)
        && IsTop(ScoreAll(r.arts, score), ScoreAll(listing[..ReadFrom(listing, 0, batchSize, ddl)], score), n)
    {
      var q, failed := Select(listing, score, ddl, failAt);
      if failed {
        return QueryFailed;
      }
      ScoreAllScored(listing[..ReadFrom(listing, 0, batchSize, ddl)], score);
      var arts := DrainDescending(q, score);
      r := Returned(arts);
    }
  }

  // ---------- Draining the queue ----------

  // Every element carries its own article's score.
  ghost predicate ScoredBy(items: multiset<Scored>, score: Article -> real) {
    forall e :: e in items ==> e.score == score(e.art)
  }

  lemma {:induction false} ScoreAllScored(arts: seq<Article>, score: Article -> real)
    ensures ScoredBy(ScoreAll(arts, score), score)
  {
    if arts != [] {
      ScoreAllScored(arts[1..], score);
    }
  }

  lemma {:induction false} ScoreAllSize(arts: seq<Article>, score: Article -> real)
    ensures |ScoreAll(arts, score)| == |arts|
  {
    if arts != [] {
      ScoreAllSize(arts[1..], score);
    }
  }

  // The tail already drained is in order, and what is left scores no higher than any of it.
  ghost predicate Drained(left: multiset<Scored>, tail: seq<Article>, all: multiset<Scored>, score: Article -> real) {
    && ScoredBy(left, score)
    && left + ScoreAll(tail, score) == all
    && Descending(tail, score)
    && forall e, j :: e in left && 0 <= j < |tail| ==> e.score >= score(tail[j])
  }

  lemma DrainStep(items: multiset<Scored>, least: Scored, tail: seq<Article>, all: multiset<Scored>,
                  score: Article -> real)
    requires IsLeast(least, items) && Drained(items, tail, all, score)
    ensures Drained(items - multiset{least}, [least.art] + tail, all, score)
    ensures |items - multiset{least}| == |items| - 1
  {
    DrainBag(items, least, tail, all, score);
    hide ScoreAll;
    var tail' := [least.art] + tail;
    assert forall j :: 1 <= j < |tail'| ==> tail'[j] == tail[j - 1];
  }

  lemma DrainBag(items: multiset<Scored>, least: Scored, tail: seq<Article>, all: multiset<Scored>,
                 score: Article -> real)
    requires least in items && least.score == score(least.art)
    requires items + ScoreAll(tail, score) == all
    ensures (items - multiset{least}) + ScoreAll([least.art] + tail, score) == all
    ensures |items - multiset{least}| == |items| - 1
  {
    assert ([least.art] + tail)[1..] == tail;
    assert ScoreAll([least.art] + tail, score) == multiset{least} + ScoreAll(tail, score);
    assert items - multiset{least} + multiset{least} == items;
  }

  lemma DrainEnd(arts: seq<Article>, all: multiset<Scored>, score: Article -> real)
    requires Drained(multiset{}, arts, all, score)
    ensures ScoreAll(arts, score) == all && Descending(arts, score)
  {
  }
}
