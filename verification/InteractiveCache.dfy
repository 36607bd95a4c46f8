/** The cache of interaction counts: one hash of decimal strings per article, under the key
    "interactive:<biz>:<id>". */
module InteractiveCache {
  import opened Tables
  import opened Interactive

  // ---------- Decimal numbers ----------

  predicate IsDigit(c: char) {
    '0' <= c <= '9'
  }

  function Natural(n: nat): (s: string)
    ensures s != "" && forall i :: 0 <= i < |s| ==> IsDigit(s[i])
  {
    var last := ['0' + (n % 10) as char];
    if n < 10 then last else Natural(n / 10) + last
  }

  function Format(i: int): string {
    if i < 0 then "-" + Natural(-i) else Natural(i)
  }

  function ParseNatural(s: string): Option<nat>
    decreases |s|
  {
    if s == "" || !IsDigit(s[|s| - 1]) then None
    else
      var d := (s[|s| - 1] - '0') as nat;
      if |s| == 1 then Some(d)
      else
        var front := ParseNatural(s[..|s| - 1]);
        if front.Some? then Some(10 * front.value + d) else None
  }

  function Signed(negative: bool, n: int): int {
    if negative then -n else n
  }

  function Parse(s: string): Option<int> {
    if s == "" then None
    else if s[0] == '-' || s[0] == '+' then
      var n := ParseNatural(s[1..]);
      if n.None? then None else Some(Signed(s[0] == '-', n.value))
    else
      var n := ParseNatural(s);
      if n.None? then None else Some(n.value)
  }

  lemma {:induction false} NaturalRoundTrip(n: nat)
    ensures ParseNatural(Natural(n)) == Some(n)
  {
    var s := Natural(n);
    if n >= 10 {
      NaturalRoundTrip(n / 10);
      assert s[..|s| - 1] == Natural(n / 10);
    }
  }

  /** A formatted integer reads back as itself. */
  lemma RoundTrip(i: int)
    ensures Parse(Format(i)) == Some(i)
  {
    hide ParseNatural, Natural;
    var n: nat := if i < 0 then -i else i;
    NaturalRoundTrip(n);
    if i < 0 {
      assert Format(i)[1..] == Natural(n);
    } else {
      assert IsDigit(Natural(n)[0]);
    }
  }

  // ---------- Keys ----------

  function KeyOf(k: Key): string {
    "interactive:" + k.biz + ":" + Format(k.id)
  }

  lemma FormatHasNoColon(i: int)
    ensures forall j :: 0 <= j < |Format(i)| ==> Format(i)[j] != ':'
  {
    hide Natural;
  }

  // Text after the last colon is determined, and so is the text before it.
  lemma LastColon(a: string, x: string, b: string, y: string)
    requires a + ":" + x == b + ":" + y
    requires forall j :: 0 <= j < |x| ==> x[j] != ':'
    requires forall j :: 0 <= j < |y| ==> y[j] != ':'
    ensures a == b && x == y
  {
    var s, t := a + ":" + x, b + ":" + y;
    assert s[|a|] == ':' && t[|b|] == ':';
    assert forall j :: |a| < j < |s| ==> s[j] == x[j - |a| - 1];
    assert forall j :: |b| < j < |t| ==> t[j] == y[j - |b| - 1];
    assert |a| == |b|;
    assert a == s[..|a|] && b == t[..|b|];
    assert x == s[|a| + 1..] && y == t[|b| + 1..];
  }

  /** Different articles have different cache keys, even when biz itself contains colons. */
  lemma KeyOfInjective(k: Key, l: Key)
    ensures KeyOf(k) == KeyOf(l) <==> k == l
  {
    if KeyOf(k) == KeyOf(l) {
      FormatHasNoColon(k.id);
      FormatHasNoColon(l.id);
      LastColon("interactive:" + k.biz, Format(k.id), "interactive:" + l.biz, Format(l.id));
      assert k.biz == ("interactive:" + k.biz)[12..] && l.biz == ("interactive:" + l.biz)[12..];
      RoundTrip(k.id);
      RoundTrip(l.id);
    }
  }

  /** What a key looks like. */
  lemma KeyText()
    ensures KeyOf(Key("article", 5)) == "interactive:article:5"
    ensures KeyOf(Key("article", -12)) == "interactive:article:-12"
  {
    assert Natural(1) == "1" && Natural(12) == "12" && Natural(5) == "5";
  }

  // ---------- Hashes ----------

  type Hash = map<string, string>

  type Hashes = map<string, Hash>

  const READ_CNT := "read_cnt"
  const LIKE_CNT := "like_cnt"
  const COLLECT_CNT := "collect_cnt"

  // A field's number; zero if missing or unreadable.
  function Field(h: Hash, field: string): int {
    if field in h && Parse(h[field]).Some? then Parse(h[field]).value else 0
  }

  /** A field that is missing, or does not read as a number, counts as zero. */
  lemma UnreadableIsZero(h: Hash, field: string)
    requires field !in h || h[field] == "" || !IsDigit(h[field][|h[field]| - 1])
    ensures Field(h, field) == 0
  {
  }

  function Decode(h: Hash): Counters {
    Counters(Field(h, READ_CNT), Field(h, LIKE_CNT), Field(h, COLLECT_CNT))
  }

  predicate Present(c: Hashes, k: Key) {
    KeyOf(k) in c && c[KeyOf(k)] != map[]
  }

  function CacheGet(c: Hashes, k: Key): Option<Counters> {
    if Present(c, k) then Some(Decode(c[KeyOf(k)])) else None
  }

  // HSET of the three fields, keeping any others.
  function Encode(h: Hash, row: Counters): Hash {
    h[COLLECT_CNT := Format(row.collectCnt)][LIKE_CNT := Format(row.likeCnt)][READ_CNT := Format(row.readCnt)]
  }

  function CacheSet(c: Hashes, k: Key, row: Counters): Hashes {
    c[KeyOf(k) := Encode(if KeyOf(k) in c then c[KeyOf(k)] else map[], row)]
  }

  // Increment a field of a present hash, and do nothing to an absent one.
  function IncrIfPresent(c: Hashes, k: Key, field: string, delta: int): Hashes {
    if Present(c, k) then c[KeyOf(k) := c[KeyOf(k)][field := Format(Field(c[KeyOf(k)], field) + delta)]] else c
  }

  function FieldOf(op: Op): string {
    match op
    case Read(_) => READ_CNT
    case Like(_, _) => LIKE_CNT
    case Cancel(_, _) => LIKE_CNT
    case Collect(_, _, _) => COLLECT_CNT
  }

  // The cache side of an operation.
  function CacheExec(c: Hashes, op: Op): Hashes {
    IncrIfPresent(c, op.key, FieldOf(op), if op.Cancel? then -1 else 1)
  }

  /** What is set is what is got, and no other article's entry changes. */
  lemma SetGet(c: Hashes, k: Key, row: Counters, l: Key)
    ensures CacheGet(CacheSet(c, k, row), l) == if l == k then Some(row) else CacheGet(c, l)
  {
    KeyOfInjective(k, l);
    EncodeDecode(if KeyOf(k) in c then c[KeyOf(k)] else map[], row);
    hide KeyOf, Encode, Decode;
  }

  lemma EncodeDecode(h: Hash, row: Counters)
    ensures Encode(h, row) != map[] && Decode(Encode(h, row)) == row
  {
    FieldsDiffer();
    RoundTrip(row.readCnt);
    RoundTrip(row.likeCnt);
    RoundTrip(row.collectCnt);
    assert READ_CNT in Encode(h, row);
    hide Parse, Format;
  }

  // An expiry removes one article's entry only.
  lemma ExpireGet(c: Hashes, k: Key, l: Key)
    ensures CacheGet(c - {KeyOf(k)}, l) == if l == k then None else CacheGet(c, l)
  {
    KeyOfInjective(k, l);
    hide KeyOf, Decode;
  }

  // A field written is the field read; the other fields stay.
  lemma FieldUpdate(h: Hash, field: string, v: int, other: string)
    ensures Field(h[field := Format(v)], other) == if other == field then v else Field(h, other)
  {
    RoundTrip(v);
  }

  /** The cache side of an operation does to a present entry what the operation does to the
      counter row, and nothing to an absent one or to any other article's entry. */
  lemma CacheExecGet(c: Hashes, op: Op, l: Key)
    ensures CacheGet(CacheExec(c, op), l) ==
            if l == op.key && Present(c, l) then Some(Bump(CacheGet(c, l).value, op)) else CacheGet(c, l)
  {
    KeyOfInjective(op.key, l);
    if l == op.key && Present(c, l) {
      FieldBumps(c[KeyOf(l)], op);
    }
    hide KeyOf, Decode, Field, FieldOf, Bump, Format;
  }

  // Incrementing an operation's field is the operation on the decoded entry.
  lemma FieldBumps(h: Hash, op: Op)
    ensures var f, delta := FieldOf(op), if op.Cancel? then -1 else 1;
            Decode(h[f := Format(Field(h, f) + delta)]) == Bump(Decode(h), op)
  {
    var f := FieldOf(op);
    var v := Field(h, f) + if op.Cancel? then -1 else 1;
    FieldUpdate(h, f, v, READ_CNT);
    FieldUpdate(h, f, v, LIKE_CNT);
    FieldUpdate(h, f, v, COLLECT_CNT);
    FieldsDiffer();
    hide Field;
  }

  lemma FieldsDiffer()
    ensures READ_CNT != LIKE_CNT && LIKE_CNT != COLLECT_CNT && COLLECT_CNT != READ_CNT
  {
    assert READ_CNT[0] == 'r' && LIKE_CNT[0] == 'l' && COLLECT_CNT[0] == 'c';
  }

  // ---------- The cache client ----------

  class InteractiveRedisCache {
    var hashes: Hashes

    constructor ()
      ensures hashes == map[]
    {
      hashes := map[];
    }

    // A failing script changes nothing.
    method Incr(biz: string, id: int, field: string, delta: int, redisOk: bool) returns (ok: bool)
      modifies this
      ensures ok <==> redisOk
      ensures hashes == if ok then IncrIfPresent(old(hashes), Key(biz, id), field, delta) else old(hashes)
    {
      if !redisOk {
        return false;
      }
      var key := KeyOf(Key(biz, id));
      if key in hashes && hashes[key] != map[] {
        var h := hashes[key];
        hashes := hashes[key := h[field := Format(Field(h, field) + delta)]];
      }
      ok := true;
    }

    method Get(biz: string, id: int, redisOk: bool) returns (res: Option<Counters>)
      ensures res == if redisOk then CacheGet(hashes, Key(biz, id)) else None
    {
      var key := KeyOf(Key(biz, id));
      if !redisOk || key !in hashes || hashes[key] == map[] {
        return None;
      }
      var h := hashes[key];
      var collects := Field(h, COLLECT_CNT);
      var likes := Field(h, LIKE_CNT);
      var readCnt := Field(h, READ_CNT);
      res := Some(Counters(readCnt, likes, collects));
    }

    // HSET, then EXPIRE; a failing EXPIRE is reported although the entry is written.
    method Set(biz: string, id: int, row: Counters, setOk: bool, expireOk: bool) returns (ok: bool)
      modifies this
      ensures ok <==> setOk && expireOk
      ensures hashes == if setOk then CacheSet(old(hashes), Key(biz, id), row) else old(hashes)
    {
      if !setOk {
        return false;
      }
      var key := KeyOf(Key(biz, id));
      var h := if key in hashes then hashes[key] else map[];
      h := h[COLLECT_CNT := Format(row.collectCnt)][LIKE_CNT := Format(row.likeCnt)][READ_CNT := Format(row.readCnt)];
      hashes := hashes[key := h];
      ok := expireOk;
    }
  }
}
