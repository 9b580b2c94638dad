/**
 The browser's in-memory page cache (player/browser_cache.go): a linked list in
 recency order, a map into it and a byte counter, under two limits.
 `Recency` is the plain list it refines, least recently used first.
 */
module PageCache {
  import opened Prelude

  const MAX_ENTRIES := 8
  const MAX_BYTES := 12 * 1048576

  datatype Doc = Doc(blocks: nat, imageBytes: seq<nat>)
  datatype Page = Page(finalURL: string, text: string, doc: Option<Doc>)
  datatype Entry = Entry(address: string, page: Page, weight: nat)
  type Recency = seq<Entry>

  function Sum(xs: seq<nat>): nat { if xs == [] then 0 else xs[0] + Sum(xs[1..]) }

  /** How many bytes UTF-8 takes for one character. */
  function CharBytes(c: char): nat {
    if c < '\U{80}' then 1 else if c < '\U{800}' then 2 else if c < '\U{10000}' then 3 else 4
  }

  /** len of a string: its bytes. */
  function TextBytes(s: string): nat {
    if s == "" then 0 else TextBytes(s[..|s| - 1]) + CharBytes(s[|s| - 1])
  }

  /** browserPageWeight, recorded once when the page is stored. */
  function Weight(p: Page): nat {
    TextBytes(p.text) + match p.doc case None => 0 case Some(d) => d.blocks * 128 + Sum(d.imageBytes)
  }

  function Bytes(r: Recency): nat { if r == [] then 0 else r[0].weight + Bytes(r[1..]) }

  predicate Fits(r: Recency) { |r| <= MAX_ENTRIES && Bytes(r) <= MAX_BYTES }

  /** Drop least recent entries until both limits hold. */
  function Evicted(r: Recency): Recency { if r == [] || Fits(r) then r else Evicted(r[1..]) }

  function Find(r: Recency, a: string): Option<Entry> {
    if r == [] then None else if r[0].address == a then Some(r[0]) else Find(r[1..], a)
  }

  function Without(r: Recency, a: string): Recency {
    if r == [] then [] else if r[0].address == a then r[1..] else [r[0]] + Without(r[1..], a)
  }

  function Key(address: string): string { Trim(GoSpace, address) }

  /** What browserCachePage agrees to remember. */
  predicate Accepts(address: string, p: Page) {
    Key(address) != "" && p.finalURL != "" && Weight(p) <= MAX_BYTES / 2
  }

  // ----- the operations on the plain list -----

  datatype Op = Get(address: string) | Put(address: string, page: Page) | Forget(address: string) | Clear

  /** Get looks its argument up as it stands; Put and Forget trim theirs. */
  function Apply(r: Recency, op: Op): Recency {
    match op
    case Get(a) => (match Find(r, a) case None => r case Some(e) => Without(r, a) + [e])
    case Put(a, p) =>
      if Accepts(a, p) then Evicted(Without(r, Key(a)) + [Entry(Key(a), p, Weight(p))]) else r
    case Forget(a) => Without(r, Key(a))
    case Clear => []
  }

  function After(ops: seq<Op>): Recency {
    if ops == [] then [] else Apply(After(ops[..|ops| - 1]), ops[|ops| - 1])
  }

  ghost predicate DistinctAddresses(r: Recency) {
    forall i, j :: 0 <= i < j < |r| ==> r[i].address != r[j].address
  }

  predicate EntryOk(e: Entry) {
    Bare(GoSpace, e.address) && e.address != "" && e.weight == Weight(e.page) && e.weight <= MAX_BYTES / 2
  }

  ghost predicate Inv(r: Recency) {
    Fits(r) && DistinctAddresses(r) && forall i :: 0 <= i < |r| ==> EntryOk(r[i])
  }

  // ----- list lemmas -----

  lemma {:induction false} BytesConcat(a: Recency, b: Recency)
    ensures Bytes(a + b) == Bytes(a) + Bytes(b)
  {
    if a == [] {
      assert a + b == b;
    } else {
      assert (a + b)[1..] == a[1..] + b;
      BytesConcat(a[1..], b);
    }
  }

  lemma {:induction false} FindFinds(r: Recency, a: string)
    ensures Find(r, a).Some? <==> exists i :: 0 <= i < |r| && r[i].address == a
    ensures Find(r, a).Some? ==> Find(r, a).value in r && Find(r, a).value.address == a
    ensures Find(r, a).None? ==> Without(r, a) == r
  {
    if r != [] && r[0].address != a {
      FindFinds(r[1..], a);
      if i :| 0 <= i < |r| && r[i].address == a { assert r[1..][i - 1].address == a; }
    }
  }

  lemma {:induction false} WithoutBytes(r: Recency, a: string)
    requires Find(r, a).Some?
    ensures Bytes(r) == Bytes(Without(r, a)) + Find(r, a).value.weight
  {
    if r[0].address != a {
      WithoutBytes(r[1..], a);
      assert Without(r, a)[1..] == Without(r[1..], a);
    }
  }

  lemma CutShifted(r: Recency, j: nat)
    requires j + 1 < |r|
    ensures [r[0]] + (r[1..][..j] + r[1..][j + 1..]) == r[..j + 1] + r[j + 2..]
  {
    assert r[..j + 1] == [r[0]] + r[1..][..j];
    assert r[j + 2..] == r[1..][j + 1..];
  }

  /** Removing an address splits the list around its one entry. */
  lemma {:induction false} WithoutSplits(r: Recency, a: string) returns (k: nat)
    requires DistinctAddresses(r) && Find(r, a).Some?
    ensures k < |r| && r[k] == Find(r, a).value && Without(r, a) == r[..k] + r[k + 1..]
    ensures forall i :: 0 <= i < |r| && i != k ==> r[i].address != a
    ensures Bytes(r) == Bytes(Without(r, a)) + r[k].weight
  {
    WithoutBytes(r, a);
    FindFinds(r, a);
    k := FoundSplits(r, a);
    assert r[k].address == a;
  }

  lemma {:induction false} FoundSplits(r: Recency, a: string) returns (k: nat)
    requires Find(r, a).Some?
    ensures k < |r| && r[k] == Find(r, a).value && r[k].address == a && Without(r, a) == r[..k] + r[k + 1..]
  {
    if r[0].address == a {
      k := 0;
      assert r[..0] + r[1..] == r[1..];
    } else {
      var j := FoundSplits(r[1..], a);
      k := j + 1;
      CutShifted(r, j);
    }
  }

  lemma {:induction false} WithoutMembers(r: Recency, a: string)
    requires DistinctAddresses(r)
    ensures forall e :: e in Without(r, a) ==> e in r && e.address != a
  {
    if r != [] {
      assert forall e :: e in r[1..] ==> e in r;
      if r[0].address == a {
        forall e | e in r[1..] ensures e.address != a {
          var i :| 0 <= i < |r[1..]| && r[1..][i] == e;
          assert r[0].address != r[i + 1].address;
        }
      } else {
        assert DistinctAddresses(r[1..]);
        WithoutMembers(r[1..], a);
        assert r[0] in r;
      }
    }
  }

  lemma CutDistinct(r: Recency, k: nat)
    requires k < |r| && DistinctAddresses(r)
    ensures DistinctAddresses(r[..k] + r[k + 1..])
  {
    var w := r[..k] + r[k + 1..];
    assert forall i :: 0 <= i < |w| ==> w[i] == r[if i < k then i else i + 1];
  }

  lemma WithoutDistinct(r: Recency, a: string)
    requires DistinctAddresses(r)
    ensures DistinctAddresses(Without(r, a)) && |Without(r, a)| <= |r|
    ensures Bytes(Without(r, a)) <= Bytes(r)
  {
    FindFinds(r, a);
    if Find(r, a).Some? {
      var k := WithoutSplits(r, a);
      CutDistinct(r, k);
    }
  }

  lemma WithoutKeeps(r: Recency, a: string)
    requires DistinctAddresses(r)
    ensures DistinctAddresses(Without(r, a)) && |Without(r, a)| <= |r|
    ensures Bytes(Without(r, a)) <= Bytes(r)
    ensures forall e :: e in Without(r, a) ==> e in r && e.address != a
  {
    WithoutMembers(r, a);
    WithoutDistinct(r, a);
  }

  /** Eviction removes exactly the shortest least-recent prefix that restores both limits. */
  lemma {:induction false} EvictedIsShortest(r: Recency) returns (k: nat)
    ensures k <= |r| && Evicted(r) == r[k..] && Fits(Evicted(r))
    ensures forall j :: 0 <= j < k ==> !Fits(r[j..])
  {
    if r == [] || Fits(r) {
      k := 0;
      assert r[0..] == r;
    } else {
      var m := EvictedIsShortest(r[1..]);
      k := m + 1;
      assert r[k..] == r[1..][m..];
      forall j | 0 <= j < k ensures !Fits(r[j..]) {
        if j == 0 { assert r[0..] == r; } else { assert r[j..] == r[1..][j - 1..]; }
      }
    }
  }

  /** The two most recent entries survive any eviction, for each weighs at most half the budget. */
  lemma LastTwoSurvive(r: Recency)
    requires forall i :: 0 <= i < |r| ==> r[i].weight <= MAX_BYTES / 2
    ensures r != [] ==> Evicted(r) != [] && Evicted(r)[|Evicted(r)| - 1] == r[|r| - 1]
    ensures |r| >= 2 ==> |Evicted(r)| >= 2 && Evicted(r)[|Evicted(r)| - 2] == r[|r| - 2]
  {
    var k := EvictedIsShortest(r);
    if |r| >= 1 {
      var one := r[|r| - 1..];
      assert one[1..] == [];
      assert Bytes(one) == r[|r| - 1].weight;
      assert Fits(one);
      assert k <= |r| - 1;
    }
    if |r| >= 2 {
      var two := r[|r| - 2..];
      assert two[1..] == r[|r| - 1..] && r[|r| - 1..][1..] == [];
      assert Bytes(two) == r[|r| - 2].weight + Bytes(two[1..]);
      assert Bytes(two[1..]) == r[|r| - 1].weight + Bytes(two[1..][1..]);
      assert Fits(two);
      assert k <= |r| - 2;
    }
  }

  // ----- weights and limits -----

  lemma {:induction false} SumConcat(a: seq<nat>, b: seq<nat>)
    ensures Sum(a + b) == Sum(a) + Sum(b)
  {
    if a == [] {
      assert a + b == b;
    } else {
      assert (a + b)[1..] == a[1..] + b;
      SumConcat(a[1..], b);
    }
  }

  /** A page weighs the UTF-8 bytes of its text, 128 for each block of its document, and the bytes of each image. */
  lemma WeightAdds(p: Page, c: char, blocks: nat, images: seq<nat>, image: nat, more: seq<nat>)
    requires p.doc == None
    ensures var n := c as int;
            Weight(p.(text := p.text + [c])) ==
              Weight(p) + if n < 0x80 then 1 else if n < 0x800 then 2 else if n < 0x1_0000 then 3 else 4
    ensures p.text == "" ==> Weight(p) == 0
    ensures Weight(p.(doc := Some(Doc(0, [])))) == Weight(p)
    ensures Weight(p.(doc := Some(Doc(blocks + 1, images)))) == Weight(p.(doc := Some(Doc(blocks, images)))) + 128
    ensures Weight(p.(doc := Some(Doc(blocks, images + [image] + more))))
            == Weight(p.(doc := Some(Doc(blocks, images + more)))) + image
  {
    assert (p.text + [c])[..|p.text|] == p.text;
    SumConcat(images + [image], more);
    SumConcat(images, [image]);
    SumConcat(images, more);
    assert [image][1..] == [];
  }

  /** The limits: eight pages and twelve megabytes, and no page of more than six. */
  lemma LimitsAre(r: Recency, e: Entry, address: string, p: Page)
    ensures Fits(r) <==> |r| <= 8 && Bytes(r) <= 12_582_912
    ensures Bytes([]) == 0 && Bytes(r + [e]) == Bytes(r) + e.weight
    ensures Accepts(address, p) <==> Trim(GoSpace, address) != "" && p.finalURL != "" && Weight(p) <= 6_291_456
  {
    BytesConcat(r, [e]);
    assert [e][1..] == [];
  }

  // ----- what one operation leaves alone -----

  lemma {:induction false} FindWithout(r: Recency, a: string, b: string)
    requires DistinctAddresses(r)
    ensures Find(Without(r, a), b) == if b == a then None else Find(r, b)
  {
    if r != [] {
      assert DistinctAddresses(r[1..]);
      FindWithout(r[1..], a, b);
      if r[0].address == a {
        FindFinds(r[1..], a);
        assert forall i :: 0 <= i < |r[1..]| ==> r[1..][i] == r[i + 1] && r[i + 1].address != a;
      } else {
        assert Without(r, a)[1..] == Without(r[1..], a);
      }
    }
  }

  lemma {:induction false} FindAppend(r: Recency, e: Entry, b: string)
    ensures Find(r + [e], b) == if Find(r, b).Some? then Find(r, b) else if b == e.address then Some(e) else None
  {
    if r == [] {
      assert r + [e] == [e] && [e][1..] == [];
    } else {
      assert (r + [e])[1..] == r[1..] + [e];
      FindAppend(r[1..], e, b);
    }
  }

  /** Forgetting drops that page alone, looking one up drops none, and clearing drops all. */
  lemma LooksAndForgets(r: Recency, a: string, b: string)
    requires Inv(r)
    ensures Find(Apply(r, Forget(a)), b) == if b == Trim(GoSpace, a) then None else Find(r, b)
    ensures Find(Apply(r, Get(a)), b) == Find(r, b)
    ensures Find(r, a).Some? ==> Apply(r, Get(a)) != [] && Apply(r, Get(a))[|Apply(r, Get(a))| - 1] == Find(r, a).value
    ensures Find(Apply(r, Clear), b) == None
  {
    FindWithout(r, Key(a), b);
    FindFinds(r, a);
    if Find(r, a).Some? {
      FindWithout(r, a, b);
      FindAppend(Without(r, a), Find(r, a).value, b);
    }
  }

  /** A put drops no other page while there is room, and a refused one drops nothing at all. */
  lemma PutLeavesTheRest(r: Recency, a: string, p: Page, b: string)
    requires Inv(r) && b != Trim(GoSpace, a)
    ensures !Accepts(a, p) ==> Apply(r, Put(a, p)) == r
    ensures |r| < 8 && Bytes(r) + Weight(p) <= 12_582_912 ==> Find(Apply(r, Put(a, p)), b) == Find(r, b)
  {
    var w, e := Without(r, Key(a)), Entry(Key(a), p, Weight(p));
    FindWithout(r, Key(a), b);
    FindAppend(w, e, b);
    WithoutDistinct(r, Key(a));
    LimitsAre(w, e, a, p);
    LimitsAre(w + [e], e, a, p);
  }

  // ----- what every sequence of operations keeps -----

  /** Re-adding an entry under an address that was removed keeps the list well-formed. */
  lemma AppendKeeps(r: Recency, e: Entry)
    requires DistinctAddresses(r) && (forall d :: d in r ==> EntryOk(d) && d.address != e.address) && EntryOk(e)
    ensures DistinctAddresses(r + [e]) && forall i :: 0 <= i < |r + [e]| ==> EntryOk((r + [e])[i])
    ensures Bytes(r + [e]) == Bytes(r) + e.weight
  {
    forall i | 0 <= i < |r| ensures r[i].address != e.address && EntryOk(r[i]) { assert r[i] in r; }
    BytesConcat(r, [e]);
    assert [e][1..] == [];
  }

  lemma WithoutEntriesOk(r: Recency, a: string)
    requires DistinctAddresses(r) && forall i :: 0 <= i < |r| ==> EntryOk(r[i])
    ensures forall d :: d in Without(r, a) ==> EntryOk(d) && d.address != a
  {
    WithoutKeeps(r, a);
    forall d | d in Without(r, a) ensures EntryOk(d) {
      assert d in r;
      var i :| 0 <= i < |r| && r[i] == d;
    }
  }

  lemma GetKeepsInv(r: Recency, a: string)
    requires Inv(r)
    ensures Inv(Apply(r, Get(a)))
  {
    FindFinds(r, a);
    if Find(r, a).Some? {
      var e := Find(r, a).value;
      var k := WithoutSplits(r, a);
      WithoutKeeps(r, a);
      WithoutEntriesOk(r, a);
      AppendKeeps(Without(r, a), e);
    }
  }

  lemma SuffixKeeps(r: Recency, k: nat)
    requires k <= |r| && DistinctAddresses(r) && forall i :: 0 <= i < |r| ==> EntryOk(r[i])
    ensures DistinctAddresses(r[k..]) && forall i :: 0 <= i < |r[k..]| ==> EntryOk(r[k..][i])
  {
    forall i, j | 0 <= i < j < |r[k..]| ensures r[k..][i].address != r[k..][j].address {
      assert r[k..][i] == r[k + i] && r[k..][j] == r[k + j];
    }
  }

  lemma EvictionKeepsInv(r: Recency)
    requires DistinctAddresses(r) && forall i :: 0 <= i < |r| ==> EntryOk(r[i])
    ensures Inv(Evicted(r))
  {
    var k := EvictedIsShortest(r);
    SuffixKeeps(r, k);
  }

  lemma PutEntryOk(a: string, p: Page)
    requires Accepts(a, p)
    ensures EntryOk(Entry(Key(a), p, Weight(p)))
  {
    TrimIsBare(GoSpace, a);
  }

  lemma PutKeepsInv(r: Recency, a: string, p: Page)
    requires Inv(r) && Accepts(a, p)
    ensures Inv(Apply(r, Put(a, p)))
  {
    var e := Entry(Key(a), p, Weight(p));
    WithoutKeeps(r, Key(a));
    WithoutEntriesOk(r, Key(a));
    PutEntryOk(a, p);
    AppendKeeps(Without(r, Key(a)), e);
    EvictionKeepsInv(Without(r, Key(a)) + [e]);
  }

  lemma ApplyKeepsInv(r: Recency, op: Op)
    requires Inv(r)
    ensures Inv(Apply(r, op))
  {
    match op {
      case Get(a) => GetKeepsInv(r, a);
      case Put(a, p) => if Accepts(a, p) { PutKeepsInv(r, a, p); }
      case Forget(a) =>
        WithoutKeeps(r, Key(a));
        WithoutEntriesOk(r, Key(a));
        forall i | 0 <= i < |Without(r, Key(a))| ensures EntryOk(Without(r, Key(a))[i]) {
          assert Without(r, Key(a))[i] in Without(r, Key(a));
        }
      case Clear =>
    }
  }

  lemma {:induction false} HistoryKeepsInv(ops: seq<Op>)
    ensures Inv(After(ops))
    ensures |After(ops)| <= 8 && Bytes(After(ops)) <= 12_582_912
    ensures forall i :: 0 <= i < |After(ops)| ==>
              var e := After(ops)[i]; e.address != "" && Bare(GoSpace, e.address) && e.weight == Weight(e.page) <= 6_291_456
  {
    if ops != [] {
      HistoryKeepsInv(ops[..|ops| - 1]);
      ApplyKeepsInv(After(ops[..|ops| - 1]), ops[|ops| - 1]);
    }
  }

  lemma HalfWeights(r: Recency, e: Entry)
    requires (forall d :: d in r ==> EntryOk(d)) && e.weight <= MAX_BYTES / 2
    ensures forall i :: 0 <= i < |r + [e]| ==> (r + [e])[i].weight <= MAX_BYTES / 2
  {
    forall i | 0 <= i < |r| ensures EntryOk(r[i]) { assert r[i] in r; }
  }

  predicate SameLastTwo(kept: Recency, grown: Recency) {
    && kept != [] && grown != [] && kept[|kept| - 1] == grown[|grown| - 1]
    && (|grown| >= 2 ==> |kept| >= 2 && kept[|kept| - 2] == grown[|grown| - 2])
  }

  /** The newest two entries of the list a put builds are still there after its eviction. */
  lemma PutTail(r: Recency, a: string, p: Page)
    requires Inv(r) && Accepts(a, p)
    ensures SameLastTwo(Apply(r, Put(a, p)), Without(r, Key(a)) + [Entry(Key(a), p, Weight(p))])
  {
    var w, e := Without(r, Key(a)), Entry(Key(a), p, Weight(p));
    WithoutEntriesOk(r, Key(a));
    PutEntryOk(a, p);
    GrownTail(w, e);
  }

  lemma GrownTail(w: Recency, e: Entry)
    requires (forall d :: d in w ==> EntryOk(d)) && e.weight <= MAX_BYTES / 2
    ensures SameLastTwo(Evicted(w + [e]), w + [e])
  {
    HalfWeights(w, e);
    LastTwoSurvive(w + [e]);
  }

  /** Back works: an accepted page is there after its own put, and so is the page that was newest before it. */
  lemma PutKeepsNewestTwo(ops: seq<Op>, a: string, p: Page)
    requires Accepts(a, p)
    ensures Find(After(ops + [Put(a, p)]), Key(a)) == Some(Entry(Key(a), p, Weight(p)))
    ensures var r := After(ops);
            r != [] && r[|r| - 1].address != Key(a) ==>
              Find(After(ops + [Put(a, p)]), r[|r| - 1].address) == Some(r[|r| - 1])
  {
    var all := ops + [Put(a, p)];
    assert all[..|all| - 1] == ops;
    HistoryKeepsInv(ops);
    var r := After(ops);
    PutFinds(r, a, p);
  }

  lemma PutFinds(r: Recency, a: string, p: Page)
    requires Inv(r) && Accepts(a, p)
    ensures Find(Apply(r, Put(a, p)), Key(a)) == Some(Entry(Key(a), p, Weight(p)))
    ensures r != [] && r[|r| - 1].address != Key(a) ==>
              Find(Apply(r, Put(a, p)), r[|r| - 1].address) == Some(r[|r| - 1])
  {
    PutTail(r, a, p);
    PutDistinct(r, a, p);
    LastTwoOfPut(r, Apply(r, Put(a, p)), Key(a), Entry(Key(a), p, Weight(p)));
  }

  lemma PutDistinct(r: Recency, a: string, p: Page)
    requires Inv(r) && Accepts(a, p)
    ensures DistinctAddresses(Apply(r, Put(a, p)))
  {
    PutKeepsInv(r, a, p);
  }

  lemma LastTwoOfPut(r: Recency, kept: Recency, a: string, e: Entry)
    requires DistinctAddresses(r) && DistinctAddresses(kept) && e.address == a && SameLastTwo(kept, Without(r, a) + [e])
    ensures Find(kept, a) == Some(e)
    ensures r != [] && r[|r| - 1].address != a ==> Find(kept, r[|r| - 1].address) == Some(r[|r| - 1])
  {
    if r != [] && r[|r| - 1].address != a { LastOfWithout(r, a); }
    LastTwoFound(kept, Without(r, a), e);
  }

  lemma LastTwoFound(kept: Recency, w: Recency, e: Entry)
    requires DistinctAddresses(kept) && SameLastTwo(kept, w + [e])
    ensures Find(kept, e.address) == Some(e)
    ensures w != [] ==> Find(kept, w[|w| - 1].address) == Some(w[|w| - 1])
  {
    FoundAt(kept, |kept| - 1);
    if w != [] { FoundAt(kept, |kept| - 2); }
  }

  lemma LastOfWithout(r: Recency, a: string)
    requires DistinctAddresses(r) && r != [] && r[|r| - 1].address != a
    ensures var w := Without(r, a); w != [] && w[|w| - 1] == r[|r| - 1]
  {
    FindFinds(r, a);
    if Find(r, a).Some? { var k := WithoutSplits(r, a); }
  }

  lemma {:induction false} FoundAt(r: Recency, i: nat)
    requires DistinctAddresses(r) && i < |r|
    ensures Find(r, r[i].address) == Some(r[i])
  {
    if i > 0 {
      assert DistinctAddresses(r[1..]);
      FoundAt(r[1..], i - 1);
    }
  }

  // ----- an independent reading of the history -----

  /** The page last stored under a and not forgotten since; a refused put changes nothing. */
  function LastStored(ops: seq<Op>, a: string): Option<Page> {
    if ops == [] then None
    else
      var op := ops[|ops| - 1];
      var before := LastStored(ops[..|ops| - 1], a);
      match op
      case Get(_) => before
      case Put(b, p) => if Accepts(b, p) && Key(b) == a then Some(p) else before
      case Forget(b) => if Key(b) == a then None else before
      case Clear => None
  }

  /** A hit returns exactly the page last stored under that address. */
  lemma {:induction false} HitsAreCurrent(ops: seq<Op>, e: Entry)
    requires e in After(ops)
    ensures LastStored(ops, e.address) == Some(e.page)
  {
    var front := ops[..|ops| - 1];
    var r, op := After(front), ops[|ops| - 1];
    HistoryKeepsInv(front);
    match op {
      case Get(a) =>
        FindFinds(r, a);
        WithoutKeeps(r, a);
        assert e in r;
        HitsAreCurrent(front, e);
      case Put(a, p) =>
        WithoutKeeps(r, Key(a));
        var added := Entry(Key(a), p, Weight(p));
        if Accepts(a, p) {
          var k := EvictedIsShortest(Without(r, Key(a)) + [added]);
          assert e in Without(r, Key(a)) + [added];
        }
        if !Accepts(a, p) || e != added {
          assert e in r;
          HitsAreCurrent(front, e);
        }
      case Forget(a) =>
        WithoutKeeps(r, Key(a));
        HitsAreCurrent(front, e);
      case Clear =>
    }
  }

  /** The last operation that used address a: an accepted put, or a get that hit; -1 if there is none. */
  function LastUse(ops: seq<Op>, a: string): int {
    if ops == [] then -1
    else
      var op, front := ops[|ops| - 1], ops[..|ops| - 1];
      if (op.Put? && Accepts(op.address, op.page) && Key(op.address) == a)
         || (op.Get? && op.address == a && Find(After(front), a).Some?)
      then |ops| - 1
      else LastUse(front, a)
  }

  lemma {:induction false} LastUseBound(ops: seq<Op>, a: string)
    ensures -1 <= LastUse(ops, a) < |ops|
  {
    if ops != [] { LastUseBound(ops[..|ops| - 1], a); }
  }

  /** In increasing order of use, and every entry was used. */
  ghost predicate Ordered(use: string -> int, r: Recency) {
    && (forall i :: 0 <= i < |r| ==> use(r[i].address) >= 0)
    && (forall i, j :: 0 <= i < j < |r| ==> use(r[i].address) < use(r[j].address))
  }

  ghost predicate UseOrder(ops: seq<Op>, r: Recency) { Ordered(a => LastUse(ops, a), r) }

  lemma OrderedCut(use: string -> int, r: Recency, k: nat)
    requires k < |r| && Ordered(use, r)
    ensures Ordered(use, r[..k] + r[k + 1..])
  {
    var w := r[..k] + r[k + 1..];
    assert forall i :: 0 <= i < |w| ==> w[i] == r[if i < k then i else i + 1];
  }

  lemma UseOrderEvicted(ops: seq<Op>, r: Recency)
    requires UseOrder(ops, r)
    ensures UseOrder(ops, Evicted(r))
  {
    var k := EvictedIsShortest(r);
    assert forall i :: 0 <= i < |r[k..]| ==> r[k..][i] == r[k + i];
  }

  /** The list is in order of last use, so what eviction drops is what was used longest ago. */
  lemma {:induction false} ListIsUseOrder(ops: seq<Op>)
    ensures UseOrder(ops, After(ops))
  {
    if ops != [] {
      var front := ops[..|ops| - 1];
      var r, op := After(front), ops[|ops| - 1];
      ListIsUseOrder(front);
      HistoryKeepsInv(front);
      match op {
        case Get(a) => UseOrderGet(ops, front, r, a);
        case Put(a, p) => UseOrderPut(ops, front, r, a, p);
        case Forget(a) => UseOrderWithout(ops, front, r, Key(a));
        case Clear =>
      }
    }
  }

  lemma UseOrderGet(ops: seq<Op>, front: seq<Op>, r: Recency, a: string)
    requires ops == front + [Get(a)] && r == After(front) && DistinctAddresses(r) && UseOrder(front, r)
    ensures UseOrder(ops, Apply(r, Get(a)))
  {
    assert ops[..|ops| - 1] == front;
    FindFinds(r, a);
    if Find(r, a).Some? {
      UseOrderWithout(ops, front, r, a);
      UseOrderAppend(ops, Without(r, a), Find(r, a).value);
    } else {
      forall i | 0 <= i < |r| ensures LastUse(ops, r[i].address) == LastUse(front, r[i].address) { assert r[i].address != a; }
      SameUses(ops, front, r);
    }
  }

  lemma UseOrderPut(ops: seq<Op>, front: seq<Op>, r: Recency, a: string, p: Page)
    requires ops == front + [Put(a, p)] && DistinctAddresses(r) && UseOrder(front, r)
    ensures UseOrder(ops, Apply(r, Put(a, p)))
  {
    assert ops[..|ops| - 1] == front;
    if Accepts(a, p) {
      var e := Entry(Key(a), p, Weight(p));
      UseOrderWithout(ops, front, r, Key(a));
      UseOrderAppend(ops, Without(r, Key(a)), e);
      UseOrderEvicted(ops, Without(r, Key(a)) + [e]);
    } else {
      SameUses(ops, front, r);
    }
  }

  lemma SameUses(ops: seq<Op>, front: seq<Op>, r: Recency)
    requires UseOrder(front, r)
    requires forall i :: 0 <= i < |r| ==> LastUse(ops, r[i].address) == LastUse(front, r[i].address)
    ensures UseOrder(ops, r)
  {}

  lemma UseOrderSublist(ops: seq<Op>, r: Recency, a: string)
    requires DistinctAddresses(r) && UseOrder(ops, r)
    ensures UseOrder(ops, Without(r, a))
  {
    FindFinds(r, a);
    if Find(r, a).Some? {
      var k := WithoutSplits(r, a);
      OrderedCut(b => LastUse(ops, b), r, k);
    }
  }

  lemma UseOrderWithout(ops: seq<Op>, front: seq<Op>, r: Recency, a: string)
    requires ops != [] && front == ops[..|ops| - 1]
    requires DistinctAddresses(r) && UseOrder(front, r)
    requires forall b :: b != a ==> LastUse(ops, b) == LastUse(front, b)
    ensures UseOrder(ops, Without(r, a))
    ensures forall e :: e in Without(r, a) ==> LastUse(ops, e.address) < |ops| - 1
  {
    var w := Without(r, a);
    WithoutMembers(r, a);
    UseOrderSublist(front, r, a);
    forall e | e in w ensures LastUse(ops, e.address) == LastUse(front, e.address) < |ops| - 1 {
      LastUseBound(front, e.address);
    }
    forall i | 0 <= i < |w| ensures LastUse(ops, w[i].address) == LastUse(front, w[i].address) {
      assert w[i] in w;
    }
    SameUses(ops, front, w);
  }

  lemma UseOrderAppend(ops: seq<Op>, r: Recency, e: Entry)
    requires ops != [] && UseOrder(ops, r) && LastUse(ops, e.address) == |ops| - 1
    requires forall d :: d in r ==> LastUse(ops, d.address) < |ops| - 1
    ensures UseOrder(ops, r + [e])
  {
    forall i | 0 <= i < |r| ensures LastUse(ops, r[i].address) < |ops| - 1 { assert r[i] in r; }
  }

  /** Keys are stored trimmed, so a get with surrounding white space never hits, whatever was put. */
  lemma UntrimmedGetMisses(ops: seq<Op>, a: string)
    ensures Find(After(ops), a).Some? ==> Key(a) == a
  {
    HistoryKeepsInv(ops);
    FindFinds(After(ops), a);
    TrimIsBare(GoSpace, a);
  }

  // ----- the source's structure -----

  class BrowserCache {
    var order: seq<Entry>            // front = least recently used
    var items: map<string, Entry>
    var bytes: int

    /** Map, list and counter describe the same entries. */
    ghost predicate Linked() reads this {
      && DistinctAddresses(order)
      && (forall a :: a in items <==> Find(order, a).Some?)
      && (forall a :: a in items ==> Find(order, a) == Some(items[a]))
      && |items| == |order|
      && bytes == Bytes(order)
    }

    ghost predicate Valid() reads this { Linked() && Inv(order) }

    constructor ()
      ensures Valid() && order == []
    {
      order, items, bytes := [], map[], 0;
    }

    /** Unlink one entry from the list, the map and the counter. */
    method Drop(a: string)
      requires Linked() && a in items
      modifies this
      ensures Linked() && order == Without(old(order), a) && |order| == |old(order)| - 1
      ensures items == old(items) - {a}
    {
      var dropped := items[a];
      ghost var k := WithoutSplits(order, a);
      ghost var before := order;
      order := Without(order, a);
      assert |items.Keys - {a}| == |items.Keys| - 1;
      items := items - {a};
      assert items.Keys == old(items).Keys - {a};
      bytes := bytes - dropped.weight;
      WithoutKeeps(before, a);
      forall b ensures Find(order, b) == if b == a then None else Find(before, b) {
        FindAfterWithout(before, a, b);
      }
    }

    method CachedPage(address: string) returns (page: Option<Page>)
      requires Valid()
      modifies this
      ensures Valid() && order == Apply(old(order), Get(address))
      ensures page == (match Find(old(order), address) case None => None case Some(e) => Some(e.page))
    {
      if address !in items { return None; }
      var e := items[address];
      ghost var k := WithoutSplits(order, address);
      ApplyKeepsInv(order, Get(address));
      ghost var before := order;
      BytesConcat(Without(order, address), [e]);
      order := Without(order, address) + [e];
      FindFinds(before, address);
      forall b ensures Find(order, b) == Find(before, b) {
        FindAfterWithout(before, address, b);
        FindInAppend(Without(before, address), e, b);
      }
      return Some(e.page);
    }

    /** Link a new entry at the back. */
    method PushBack(e: Entry)
      requires Linked() && Find(order, e.address).None?
      modifies this
      ensures Linked() && order == old(order) + [e]
    {
      FindFinds(order, e.address);
      forall b ensures Find(order + [e], b) == if b == e.address then Some(e) else Find(order, b) {
        FindInAppend(order, e, b);
      }
      BytesConcat(order, [e]);
      assert [e][1..] == [];
      items := items[e.address := e];
      order := order + [e];
      bytes := bytes + e.weight;
    }

    method CachePage(address: string, page: Page)
      requires Valid()
      modifies this
      ensures Valid() && order == Apply(old(order), Put(address, page))
    {
      var key := Key(address);
      if key == "" || page.finalURL == "" { return; }
      var e := Entry(key, page, Weight(page));
      if e.weight > MAX_BYTES / 2 { return; }
      ApplyKeepsInv(order, Put(address, page));
      FindFinds(order, key);
      FindAfterWithout(order, key, key);
      if key in items { Drop(key); }
      PushBack(e);
      ghost var grown := order;
      while |items| > MAX_ENTRIES || bytes > MAX_BYTES
        invariant Linked()
        invariant Evicted(order) == Evicted(grown)
        decreases |order|
      {
        if order == [] { break; }
        Drop(order[0].address);
      }
    }

    method ForgetPage(address: string)
      requires Valid()
      modifies this
      ensures Valid() && order == Apply(old(order), Forget(address))
    {
      var key := Key(address);
      ApplyKeepsInv(order, Forget(address));
      FindFinds(order, key);
      if key !in items { return; }
      Drop(key);
    }

    method ClearPageCache()
      modifies this
      ensures Valid() && order == Apply(old(order), Clear)
    {
      order, items, bytes := [], map[], 0;
    }

    /** The sizes the diagnostics screen shows are those of the recency list, and within both limits. */
    method CacheSize() returns (entries: nat, held: int)
      requires Valid()
      ensures entries == |order| <= MAX_ENTRIES && held == Bytes(order) <= MAX_BYTES
    {
      return |items|, bytes;
    }
  }

  lemma {:induction false} FindAfterWithout(r: Recency, a: string, b: string)
    requires DistinctAddresses(r)
    ensures Find(Without(r, a), b) == if b == a then None else Find(r, b)
  {
    if r != [] {
      assert DistinctAddresses(r[1..]);
      if r[0].address == a {
        FindFinds(r[1..], a);
      } else {
        FindAfterWithout(r[1..], a, b);
        assert Without(r, a)[1..] == Without(r[1..], a);
      }
    }
  }

  lemma {:induction false} FindInAppend(r: Recency, e: Entry, b: string)
    ensures Find(r + [e], b) == if Find(r, b).Some? then Find(r, b) else if e.address == b then Some(e) else None
  {
    if r == [] {
      assert r + [e] == [e] && [e][1..] == [];
    } else if r[0].address != b {
      assert (r + [e])[1..] == r[1..] + [e];
      FindInAppend(r[1..], e, b);
    }
  }
}
