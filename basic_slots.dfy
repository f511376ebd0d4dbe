// The item slots of the basic editor's container: the blocks that are not
// header blocks (js/basic-article/script.js:669-674), their order, and
// where each one sits among the header blocks.

module BasicSlots {
  import opened BasicLayoutFacts
  import opened BasicPopulate

  /** A block the populator treats as an item slot. */
  predicate IsItem(b: UiBlock)
  {
    !IsHeaderKind(b.kind)
  }

  function Items(bs: seq<UiBlock>): seq<UiBlock>
  {
    if bs == [] then [] else (if IsItem(bs[0]) then [bs[0]] else []) + Items(bs[1..])
  }

  function Headers(bs: seq<UiBlock>): seq<UiBlock>
  {
    if bs == [] then [] else (if IsItem(bs[0]) then [] else [bs[0]]) + Headers(bs[1..])
  }

  lemma ItemsCons(b: UiBlock, rest: seq<UiBlock>)
    ensures Items([b] + rest) == (if IsItem(b) then [b] else []) + Items(rest)
    ensures Headers([b] + rest) == (if IsItem(b) then [] else [b]) + Headers(rest)
  {
    assert ([b] + rest)[1..] == rest;
  }

  lemma ItemsSingle(b: UiBlock)
    ensures Items([b]) == (if IsItem(b) then [b] else [])
    ensures Headers([b]) == (if IsItem(b) then [] else [b])
  {
    assert [b][1..] == [];
  }

  lemma {:induction false} ItemsConcat(a: seq<UiBlock>, b: seq<UiBlock>)
    ensures Items(a + b) == Items(a) + Items(b)
    ensures Headers(a + b) == Headers(a) + Headers(b)
  {
    if a != [] {
      assert a == [a[0]] + a[1..];
      assert a + b == [a[0]] + (a[1..] + b);
      ItemsConcat(a[1..], b);
      ItemsCons(a[0], a[1..] + b);
      ItemsCons(a[0], a[1..]);
      AppendAssoc(if IsItem(a[0]) then [a[0]] else [], Items(a[1..]), Items(b));
      AppendAssoc(if IsItem(a[0]) then [] else [a[0]], Headers(a[1..]), Headers(b));
    } else {
      AppendEmpty(b, Items(b), Headers(b));
    }
  }

  lemma AppendAssoc<T>(x: seq<T>, y: seq<T>, z: seq<T>)
    ensures x + y + z == x + (y + z)
  {
  }

  lemma AppendEmpty<T>(x: seq<T>, y: seq<T>, z: seq<T>)
    ensures [] + x == x && [] + y == y && [] + z == z
  {
  }

  /** Every block is either a slot or a header. */
  lemma {:induction false} ItemsHeadersSplit(bs: seq<UiBlock>)
    ensures |Items(bs)| + |Headers(bs)| == |bs|
  {
    if bs != [] {
      ItemsHeadersSplit(bs[1..]);
    }
  }

  /** How many slots come before position i. */
  function SlotRank(bs: seq<UiBlock>, i: nat): nat
    requires i <= |bs|
  {
    if i == 0 then 0 else SlotRank(bs, i - 1) + (if IsItem(bs[i - 1]) then 1 else 0)
  }

  lemma SlotRankStep(bs: seq<UiBlock>, i: nat)
    requires i < |bs|
    ensures SlotRank(bs, i + 1) == SlotRank(bs, i) + (if IsItem(bs[i]) then 1 else 0)
  {
  }

  lemma TakeSnoc<T>(xs: seq<T>, i: nat)
    requires i < |xs|
    ensures xs[..i + 1] == xs[..i] + [xs[i]] && xs[..0] == []
  {
  }

  /** The rank of position i counts the slots of the first i blocks. */
  lemma {:induction false} SlotRankItems(bs: seq<UiBlock>, i: nat)
    requires i <= |bs|
    ensures SlotRank(bs, i) == |Items(bs[..i])|
  {
    if i == 0 {
      assert bs[..0] == [];
    } else {
      SlotRankItems(bs, i - 1);
      TakeSnoc(bs, i - 1);
      ItemsConcat(bs[..i - 1], [bs[i - 1]]);
      ItemsSingle(bs[i - 1]);
    }
  }

  /** Ranks in the container without its first block. */
  lemma {:induction false} SlotRankShift(bs: seq<UiBlock>, i: nat)
    requires 1 <= i <= |bs|
    ensures SlotRank(bs, i) == (if IsItem(bs[0]) then 1 else 0) + SlotRank(bs[1..], i - 1)
  {
    if i > 1 {
      SlotRankShift(bs, i - 1);
      assert bs[1..][i - 2] == bs[i - 1];
    }
  }

  lemma SlotRankAll(bs: seq<UiBlock>)
    ensures SlotRank(bs, |bs|) == |Items(bs)|
  {
    SlotRankItems(bs, |bs|);
    assert bs[..|bs|] == bs;
  }

  /** Ranks never decrease along the container, and a slot raises the rank
    * of everything after it. */
  lemma {:induction false} SlotRankMono(bs: seq<UiBlock>, i: nat, j: nat)
    requires i <= j <= |bs|
    ensures SlotRank(bs, i) <= SlotRank(bs, j)
    ensures i < j && IsItem(bs[i]) ==> SlotRank(bs, i) < SlotRank(bs, j)
    decreases j - i
  {
    if i < j {
      SlotRankStep(bs, i);
      SlotRankMono(bs, i + 1, j);
    }
  }

  /** The position of the r-th item slot. */
  function ItemPos(bs: seq<UiBlock>, r: nat): (p: nat)
    requires r < |Items(bs)|
    ensures r <= p < |bs| && IsItem(bs[p])
    decreases |bs|
  {
    if IsItem(bs[0]) then (if r == 0 then 0 else 1 + ItemPos(bs[1..], r - 1))
    else 1 + ItemPos(bs[1..], r)
  }

  /** The block at the r-th slot's position is the r-th slot. */
  lemma {:induction false} ItemPosItem(bs: seq<UiBlock>, r: nat)
    requires r < |Items(bs)|
    ensures bs[ItemPos(bs, r)] == Items(bs)[r]
    decreases |bs|
  {
    if !(IsItem(bs[0]) && r == 0) {
      ItemPosItem(bs[1..], if IsItem(bs[0]) then r - 1 else r);
    }
  }

  /** The r-th slot has exactly r slots before it. */
  lemma {:induction false} ItemPosRank(bs: seq<UiBlock>, r: nat)
    requires r < |Items(bs)|
    ensures SlotRank(bs, ItemPos(bs, r)) == r
    decreases |bs|
  {
    var p := ItemPos(bs, r);
    if p > 0 {
      var t := bs[1..];
      var r' := if IsItem(bs[0]) then r - 1 else r;
      ItemPosRank(t, r');
      SlotRankShift(bs, p);
    }
  }

  /** A slot is the slot of its own rank. */
  lemma RankPos(bs: seq<UiBlock>, j: nat)
    requires j < |bs| && IsItem(bs[j])
    ensures SlotRank(bs, j) < |Items(bs)| && ItemPos(bs, SlotRank(bs, j)) == j
  {
    SlotRankMono(bs, j, |bs|);
    SlotRankAll(bs);
    var r := SlotRank(bs, j);
    var p := ItemPos(bs, r);
    ItemPosRank(bs, r);
    if p < j {
      SlotRankMono(bs, p, j);
    } else if j < p {
      SlotRankMono(bs, j, p);
    }
  }

  /** Where the slot of rank r is, or the end of the container for the
    * rank just past the last slot. */
  function SlotAt(bs: seq<UiBlock>, r: nat): (p: nat)
    requires r <= |Items(bs)|
    ensures p <= |bs| && SlotRank(bs, p) == r
    ensures r < |Items(bs)| ==> p == ItemPos(bs, r)
  {
    if r < |Items(bs)| then ItemPosRank(bs, r); ItemPos(bs, r)
    else SlotRankAll(bs); |bs|
  }

  /** Between the slot of rank r and the next one there are only headers. */
  lemma NoSlotBetween(bs: seq<UiBlock>, r: nat, j: nat)
    requires r < |Items(bs)| && ItemPos(bs, r) < j < SlotAt(bs, r + 1)
    ensures !IsItem(bs[j])
  {
    if IsItem(bs[j]) {
      SlotRankMono(bs, ItemPos(bs, r), j);
      SlotRankMono(bs, j, SlotAt(bs, r + 1));
      ItemPosRank(bs, r);
    }
  }

  /** When the first k blocks are all slots, they are the slots of rank
    * 0 to k - 1. */
  lemma {:induction false} FrontRank(bs: seq<UiBlock>, k: nat)
    requires k <= |bs| && forall i :: 0 <= i < k ==> IsItem(bs[i])
    ensures SlotRank(bs, k) == k && Headers(bs[..k]) == []
  {
    SlotRankItems(bs, k);
    ItemsHeadersSplit(bs[..k]);
    if k > 0 {
      FrontRank(bs, k - 1);
    }
  }

  /** What the slot at position i holds once every slot of rank below g
    * holds its new block `want[rank]`. */
  function FilledAt(bs: seq<UiBlock>, want: seq<UiBlock>, g: nat, i: nat): UiBlock
    requires g <= |want| && i < |bs|
  {
    if IsItem(bs[i]) && SlotRank(bs, i) < g then want[SlotRank(bs, i)] else bs[i]
  }

  /** The container with the slots of rank below g filled in place. */
  function Filled(bs: seq<UiBlock>, want: seq<UiBlock>, g: nat): (r: seq<UiBlock>)
    requires g <= |want|
    ensures |r| == |bs|
  {
    seq(|bs|, i requires 0 <= i < |bs| => FilledAt(bs, want, g, i))
  }

  /** With nothing filled yet, the container is as it was. */
  lemma FilledNone(bs: seq<UiBlock>, want: seq<UiBlock>)
    ensures Filled(bs, want, 0) == bs
  {
    assert forall i :: 0 <= i < |bs| ==> Filled(bs, want, 0)[i] == bs[i];
  }

  /** Filling the slot of rank g is an update at its position, which held
    * the slot itself until then. */
  lemma FilledStep(bs: seq<UiBlock>, want: seq<UiBlock>, g: nat)
    requires g < |want| && g < |Items(bs)|
    ensures Filled(bs, want, g)[ItemPos(bs, g)] == bs[ItemPos(bs, g)]
    ensures Filled(bs, want, g)[ItemPos(bs, g) := want[g]] == Filled(bs, want, g + 1)
  {
    var p := ItemPos(bs, g);
    ItemPosRank(bs, g);
    var f := Filled(bs, want, g)[p := want[g]];
    var h := Filled(bs, want, g + 1);
    forall i | 0 <= i < |bs|
      ensures f[i] == h[i]
    {
      if i != p && IsItem(bs[i]) {
        RankPos(bs, i);
      }
    }
    assert f == h;
  }

  /** With fewer than g + 1 slots there is no slot of rank g to fill. */
  lemma FilledBeyond(bs: seq<UiBlock>, want: seq<UiBlock>, g: nat)
    requires |Items(bs)| <= g < |want|
    ensures Filled(bs, want, g + 1) == Filled(bs, want, g)
  {
    var f := Filled(bs, want, g + 1);
    var h := Filled(bs, want, g);
    forall i | 0 <= i < |bs|
      ensures f[i] == h[i]
    {
      if IsItem(bs[i]) {
        RankPos(bs, i);
      }
    }
    assert f == h;
  }

  lemma SameFrom<T>(x: seq<T>, y: seq<T>, a: nat)
    requires |x| == |y| && a <= |x|
    requires forall i :: a <= i < |x| ==> x[i] == y[i]
    ensures x[a..] == y[a..]
  {
  }

  /** From the slot of rank g on, nothing is filled yet. */
  lemma FilledUnchangedFrom(bs: seq<UiBlock>, want: seq<UiBlock>, g: nat, a: nat)
    requires g <= |want| && a <= |bs| && g <= SlotRank(bs, a)
    ensures Filled(bs, want, g)[a..] == bs[a..]
  {
    forall i | a <= i < |bs|
      ensures Filled(bs, want, g)[i] == bs[i]
    {
      SlotRankMono(bs, a, i);
    }
    SameFrom(Filled(bs, want, g), bs, a);
  }

  /** Every block of `want` is an item block. */
  predicate AllItems(want: seq<UiBlock>)
  {
    forall k :: 0 <= k < |want| ==> IsItem(want[k])
  }

  /** One place of a stretch of filled slots: a slot holds the new block
    * of its rank, a header stays. */
  lemma FilledItemAt(bs: seq<UiBlock>, want: seq<UiBlock>, g: nat, i: nat)
    requires g <= |want| && i < |bs| && SlotRank(bs, i + 1) <= g && AllItems(want)
    ensures Items([Filled(bs, want, g)[i]])
      == (if IsItem(bs[i]) then [want[SlotRank(bs, i)]] else [])
  {
    ItemsSingle(Filled(bs, want, g)[i]);
  }

  /** In a stretch of filled slots, the slots are the new blocks of their
    * ranks, in order. */
  lemma {:induction false} ItemsOfFilled(bs: seq<UiBlock>, want: seq<UiBlock>, g: nat, a: nat, b: nat)
    requires g <= |want| && a <= b <= |bs| && SlotRank(bs, b) <= g && AllItems(want)
    ensures SlotRank(bs, a) <= SlotRank(bs, b)
    ensures Items(Filled(bs, want, g)[a..b]) == want[SlotRank(bs, a)..SlotRank(bs, b)]
    decreases b - a
  {
    SlotRankMono(bs, a, b);
    var f := Filled(bs, want, g);
    if a == b {
      EmptySlice(f, a);
      EmptySlice(want, SlotRank(bs, a));
    } else {
      SlotRankMono(bs, b - 1, b);
      ItemsOfFilled(bs, want, g, a, b - 1);
      SliceSnoc(f, a, b);
      FilledItemAt(bs, want, g, b - 1);
      ItemsSnoc(f[a..b - 1], f[b - 1], want, SlotRank(bs, a), SlotRank(bs, b - 1), SlotRank(bs, b), IsItem(bs[b - 1]));
    }
  }

  /** One more block after a stretch whose items are `w[ra..rb]`: it adds
    * `w[rb]` when it is a slot, nothing otherwise. */
  lemma ItemsSnoc(x: seq<UiBlock>, last: UiBlock, w: seq<UiBlock>, ra: nat, rb: nat, rc: nat, slot: bool)
    requires ra <= rb && rc == rb + (if slot then 1 else 0) && rc <= |w|
    requires Items(x) == w[ra..rb]
    requires Items([last]) == (if slot then [w[rb]] else [])
    ensures Items(x + [last]) == w[ra..rc]
  {
    ItemsConcat(x, [last]);
    if slot {
      SliceSnoc(w, ra, rc);
    } else {
      AppendNothing(w[ra..rb]);
    }
  }

  /** Two stretches with slots at the same places and the same headers
    * between them. */
  predicate SameHeaders(xs: seq<UiBlock>, ys: seq<UiBlock>)
  {
    |xs| == |ys|
    && forall i :: 0 <= i < |xs| ==> IsItem(xs[i]) == IsItem(ys[i]) && (!IsItem(xs[i]) ==> xs[i] == ys[i])
  }

  lemma {:induction false} HeadersOfSameHeaders(xs: seq<UiBlock>, ys: seq<UiBlock>)
    requires SameHeaders(xs, ys)
    ensures Headers(xs) == Headers(ys)
    decreases |xs|
  {
    if xs != [] {
      assert SameHeaders(xs[1..], ys[1..]) by {
        forall i | 0 <= i < |xs| - 1
          ensures xs[1..][i] == xs[i + 1] && ys[1..][i] == ys[i + 1]
        {
        }
      }
      HeadersOfSameHeaders(xs[1..], ys[1..]);
    }
  }

  /** Filling slots with item blocks leaves the headers where they were. */
  lemma HeadersOfFilled(bs: seq<UiBlock>, want: seq<UiBlock>, g: nat, a: nat, b: nat)
    requires g <= |want| && a <= b <= |bs| && AllItems(want)
    ensures Headers(Filled(bs, want, g)[a..b]) == Headers(bs[a..b])
  {
    var f := Filled(bs, want, g);
    assert SameHeaders(f[a..b], bs[a..b]) by {
      forall k | 0 <= k < b - a
        ensures f[a..b][k] == f[a + k] && bs[a..b][k] == bs[a + k]
        ensures IsItem(f[a + k]) == IsItem(bs[a + k]) && (!IsItem(bs[a + k]) ==> f[a + k] == bs[a + k])
      {
      }
    }
    HeadersOfSameHeaders(f[a..b], bs[a..b]);
  }

  lemma Split3<T>(xs: seq<T>, a: nat, b: nat)
    requires a <= b <= |xs|
    ensures xs == xs[..a] + xs[a..b] + xs[b..]
  {
  }

  lemma SliceSnoc<T>(xs: seq<T>, a: nat, b: nat)
    requires a < b <= |xs|
    ensures xs[a..b] == xs[a..b - 1] + [xs[b - 1]]
  {
  }

  lemma EmptySlice<T>(xs: seq<T>, a: nat)
    requires a <= |xs|
    ensures xs[a..a] == []
  {
  }

  lemma AppendNothing<T>(x: seq<T>)
    ensures x + [] == x
  {
  }

  /** Items and headers of four stretches put together. */
  lemma ItemsConcat4(a: seq<UiBlock>, b: seq<UiBlock>, c: seq<UiBlock>, d: seq<UiBlock>)
    ensures Items(a + b + c + d) == Items(a) + Items(b) + Items(c) + Items(d)
    ensures Headers(a + b + c + d) == Headers(a) + Headers(b) + Headers(c) + Headers(d)
  {
    ItemsConcat(a, b);
    ItemsConcat(a + b, c);
    ItemsConcat(a + b + c, d);
  }

  /** Items and headers of a container cut in three. */
  lemma ItemsSplit3(xs: seq<UiBlock>, a: nat, b: nat)
    requires a <= b <= |xs|
    ensures Items(xs) == Items(xs[..a]) + Items(xs[a..b]) + Items(xs[b..])
    ensures Headers(xs) == Headers(xs[..a]) + Headers(xs[a..b]) + Headers(xs[b..])
  {
    Split3(xs, a, b);
    ItemsConcat(xs[..a], xs[a..b]);
    ItemsConcat(xs[..a] + xs[a..b], xs[b..]);
  }

  function Min(a: nat, b: nat): nat
  {
    if a < b then a else b
  }


  /** The first m blocks are slots. */
  predicate FrontSlots(bs: seq<UiBlock>, m: nat)
  {
    m <= |bs| && forall i :: 0 <= i < m ==> IsItem(bs[i])
  }

  /** Where the slots from rank |want| on begin (the end of the container
    * when there are no more slots than new blocks). */
  function Cut(bs: seq<UiBlock>, want: seq<UiBlock>): nat
  {
    SlotAt(bs, Min(|want|, |Items(bs)|))
  }

  /** The front slots come before the cut. */
  lemma FrontBeforeCut(bs: seq<UiBlock>, want: seq<UiBlock>, m: nat)
    requires FrontSlots(bs, m) && m <= |want|
    ensures SlotRank(bs, m) == m && m <= Min(|want|, |Items(bs)|) && m <= Cut(bs, want)
  {
    FrontRank(bs, m);
    SlotRankMono(bs, m, |bs|);
    SlotRankAll(bs);
    var cut := Cut(bs, want);
    if cut < m {
      SlotRankMono(bs, cut, m);
    }
  }

  /** The container with new blocks `want` for the slots: the slot of
    * rank g < |want| holds `want[g]` in its own place and the slots from
    * rank |want| on are removed, but the first m blocks, which are slots,
    * are gone, their new blocks coming at the end, followed by the new
    * blocks beyond the slots. */
  function Arranged(bs: seq<UiBlock>, want: seq<UiBlock>, m: nat): seq<UiBlock>
    requires FrontSlots(bs, m) && m <= |want|
  {
    var cut := Cut(bs, want);
    FrontBeforeCut(bs, want, m);
    Filled(bs, want, |want|)[m..cut] + Headers(bs[cut..]) + want[..m]
      + (if |Items(bs)| < |want| then want[|Items(bs)|..] else [])
  }

  lemma ItemBlocks(xs: seq<UiBlock>)
    requires AllItems(xs)
    ensures Items(xs) == xs && Headers(xs) == []
  {
    if xs != [] {
      ItemBlocks(xs[1..]);
      ItemsCons(xs[0], xs[1..]);
      assert xs == [xs[0]] + xs[1..];
    }
  }

  lemma HeadersOnly(xs: seq<UiBlock>)
    requires forall k :: 0 <= k < |xs| ==> !IsItem(xs[k])
    ensures Headers(xs) == xs
  {
    if xs != [] {
      HeadersOnly(xs[1..]);
      ItemsCons(xs[0], xs[1..]);
      assert xs == [xs[0]] + xs[1..];
    }
  }

  lemma {:induction false} HeadersOfHeaders(xs: seq<UiBlock>)
    ensures Items(Headers(xs)) == [] && Headers(Headers(xs)) == Headers(xs)
  {
    if xs != [] {
      HeadersOfHeaders(xs[1..]);
      if IsItem(xs[0]) {
        assert Headers(xs) == Headers(xs[1..]);
      } else {
        assert Headers(xs) == [xs[0]] + Headers(xs[1..]);
        ItemsCons(xs[0], Headers(xs[1..]));
      }
    }
  }

  lemma Collapse<T>(x: seq<T>, y: seq<T>, e: seq<T>, e': seq<T>)
    requires e == [] && e' == []
    ensures x + y + e + e' == x + y && e + x + y == x + y && x + e + y + e' == x + y
  {
  }

  /** The items and headers of the arrangement, piece by piece. */
  lemma ArrangedParts(bs: seq<UiBlock>, want: seq<UiBlock>, m: nat)
    requires FrontSlots(bs, m) && m <= |want| && AllItems(want)
    ensures var cut := Cut(bs, want);
      var f := Filled(bs, want, |want|)[m..cut];
      var k := Min(|want|, |Items(bs)|);
      m <= cut <= |bs| && m <= k
      && Headers(Arranged(bs, want, m)) == Headers(f) + Headers(bs[cut..])
      && Items(Arranged(bs, want, m)) == Items(f) + want[..m] + want[k..]
  {
    var cut := Cut(bs, want);
    FrontBeforeCut(bs, want, m);
    var f := Filled(bs, want, |want|)[m..cut];
    var h := Headers(bs[cut..]);
    var k := Min(|want|, |Items(bs)|);
    var extra := if |Items(bs)| < |want| then want[|Items(bs)|..] else [];
    if |Items(bs)| >= |want| {
      assert want[k..] == [];
    }
    assert AllItems(want[..m]) && AllItems(extra);
    ItemBlocks(want[..m]);
    ItemBlocks(extra);
    HeadersOfHeaders(bs[cut..]);
    ItemsConcat4(f, h, want[..m], extra);
    Collapse(Headers(f), h, Headers(want[..m]), Headers(extra));
    JoinEmpty(Items(f), want[..m], Items(h), extra);
  }

  /** Arranging keeps every header block, in order. */
  lemma ArrangedHeaders(bs: seq<UiBlock>, want: seq<UiBlock>, m: nat)
    requires FrontSlots(bs, m) && m <= |want| && AllItems(want)
    ensures Headers(Arranged(bs, want, m)) == Headers(bs)
  {
    var cut := Cut(bs, want);
    ArrangedParts(bs, want, m);
    HeadersOfFilled(bs, want, |want|, m, cut);
    FrontRank(bs, m);
    ItemsSplit3(bs, m, cut);
    Collapse(Headers(bs[m..cut]), Headers(bs[cut..]), Headers(bs[..m]), []);
  }

  /** The item blocks after arranging: the new blocks placed in the slots'
    * places, then those of the front slots, then those beyond the slots. */
  lemma ArrangedItems(bs: seq<UiBlock>, want: seq<UiBlock>, m: nat)
    requires FrontSlots(bs, m) && m <= |want| && AllItems(want)
    ensures var k := Min(|want|, |Items(bs)|);
      m <= k && Items(Arranged(bs, want, m)) == want[m..k] + want[..m] + want[k..]
  {
    var cut := Cut(bs, want);
    ArrangedParts(bs, want, m);
    FrontBeforeCut(bs, want, m);
    ItemsOfFilled(bs, want, |want|, m, cut);
  }

  /** The container while the new blocks are placed one by one: those of
    * rank below g placed, the first k slots moved to the end. */
  function Staged(bs: seq<UiBlock>, want: seq<UiBlock>, g: nat, k: nat): seq<UiBlock>
    requires k <= g <= |want| && k <= |bs|
  {
    Filled(bs, want, g)[k..] + want[..k] + (if |Items(bs)| < g then want[|Items(bs)|..g] else [])
  }

  lemma StagedStart(bs: seq<UiBlock>, want: seq<UiBlock>)
    ensures Staged(bs, want, 0, 0) == bs
  {
    FilledNone(bs, want);
  }

  /** Placing the new block of rank g in the slot's own place, which holds
    * the slot until then. */
  lemma StagedFill(bs: seq<UiBlock>, want: seq<UiBlock>, g: nat, k: nat, p: int)
    requires k <= g < |want| && g < |Items(bs)| && k <= |bs| && p == ItemPos(bs, g) - k
    ensures 0 <= p < |Filled(bs, want, g)[k..]|
    ensures Staged(bs, want, g, k)[p] == bs[ItemPos(bs, g)]
    ensures Staged(bs, want, g, k)[p := want[g]] == Staged(bs, want, g + 1, k)
  {
    var q := ItemPos(bs, g);
    var f := Filled(bs, want, g);
    FilledStep(bs, want, g);
    assert f[k..][q - k := want[g]] == f[q := want[g]][k..];
    assert |Items(bs)| >= g + 1;
  }

  /** Placing the new block of the slot at the very front: the slot goes,
    * and the new block comes after those of the slots moved before. */
  lemma StagedMove(bs: seq<UiBlock>, want: seq<UiBlock>, g: nat)
    requires g < |want| && g < |Items(bs)| && ItemPos(bs, g) == g
    ensures Staged(bs, want, g, g) != []
    ensures Staged(bs, want, g, g)[0] == bs[g]
    ensures Staged(bs, want, g, g)[1..] + [want[g]] == Staged(bs, want, g + 1, g + 1)
  {
    var f := Filled(bs, want, g);
    FilledStep(bs, want, g);
    assert f[g..][1..] == f[g := want[g]][g + 1..];
    assert want[..g] + [want[g]] == want[..g + 1];
  }

  /** With no slot of rank g, the new block goes at the end. */
  lemma StagedAppend(bs: seq<UiBlock>, want: seq<UiBlock>, g: nat, k: nat)
    requires k <= g < |want| && |Items(bs)| <= g && k <= |bs|
    ensures Staged(bs, want, g, k) + [want[g]] == Staged(bs, want, g + 1, k)
  {
    FilledBeyond(bs, want, g);
    var s := |Items(bs)|;
    assert (if s < g then want[s..g] else []) + [want[g]] == want[s..g + 1];
  }

  /** After the last new block is placed, removing the left-over slots
    * gives the arrangement. */
  lemma StagedEnd(bs: seq<UiBlock>, want: seq<UiBlock>, m: nat)
    requires FrontSlots(bs, m) && m <= |want|
    ensures var cut := Cut(bs, want);
      m <= cut
      && Staged(bs, want, |want|, m) == Filled(bs, want, |want|)[m..cut] + bs[cut..] + want[..m]
           + (if |Items(bs)| < |want| then want[|Items(bs)|..] else [])
      && Arranged(bs, want, m) == Filled(bs, want, |want|)[m..cut] + Headers(bs[cut..]) + want[..m]
           + (if |Items(bs)| < |want| then want[|Items(bs)|..] else [])
      && (|Items(bs)| <= |want| ==> bs[cut..] == [] && Headers(bs[cut..]) == [])
  {
    var cut := Cut(bs, want);
    FrontBeforeCut(bs, want, m);
    var f := Filled(bs, want, |want|);
    if |want| < |Items(bs)| {
      FilledUnchangedFrom(bs, want, |want|, cut);
      assert f[m..] == f[m..cut] + f[cut..];
    } else {
      assert f[m..cut] == f[m..];
    }
  }

  /** Slot i, the first left over, sits right after the headers kept so
    * far. */
  lemma TrimBounds(start: seq<UiBlock>, n: nat, i: nat)
    requires n <= i < |Items(start)|
    ensures var cut := SlotAt(start, n);
      var q := ItemPos(start, i);
      cut <= q < SlotAt(start, i + 1)
      && |Headers(start[cut..q])| == q - cut - (i - n)
  {
    var cut := SlotAt(start, n);
    var q := ItemPos(start, i);
    var q' := SlotAt(start, i + 1);
    ItemPosRank(start, i);
    if q < cut {
      SlotRankMono(start, q, cut);
    }
    if q' <= q {
      SlotRankMono(start, q', q);
    }
    SlotRankItems(start, cut);
    SlotRankItems(start, q);
    TakeSplit(start, cut, q);
    ItemsConcat(start[..cut], start[cut..q]);
    ItemsHeadersSplit(start[cut..q]);
  }

  lemma TakeSplit<T>(xs: seq<T>, a: nat, b: nat)
    requires a <= b <= |xs|
    ensures xs[..b] == xs[..a] + xs[a..b]
  {
  }

  lemma SliceAround<T>(xs: seq<T>, a: nat, q: nat, b: nat)
    requires a <= q < b <= |xs|
    ensures xs[a..b] == xs[a..q] + [xs[q]] + xs[q + 1..b]
  {
  }

  /** The headers up to slot i + 1 are those up to slot i and those between
    * the two slots. */
  lemma TrimJoin(start: seq<UiBlock>, cut: nat, q: nat, q': nat, i: nat)
    requires cut <= q < q' <= |start| && i < |Items(start)| && q == ItemPos(start, i) && q' == SlotAt(start, i + 1)
    ensures Headers(start[cut..q']) == Headers(start[cut..q]) + start[q + 1..q']
  {
    var mid := start[q + 1..q'];
    forall j | 0 <= j < |mid|
      ensures !IsItem(mid[j])
    {
      NoSlotBetween(start, i, q + 1 + j);
    }
    HeadersOnly(mid);
    SliceAround(start, cut, q, q');
    ItemsConcat(start[cut..q] + [start[q]], mid);
    ItemsConcat(start[cut..q], [start[q]]);
    ItemsSingle(start[q]);
  }

  /** Removing the block at position |a| + |h|, which is xs[q]. */
  lemma RemoveJoin<T>(bs: seq<T>, a: seq<T>, h: seq<T>, xs: seq<T>, q: nat, q': nat, tail: seq<T>, h': seq<T>, p: int)
    requires q < q' <= |xs| && bs == a + h + xs[q..] + tail
    requires p == |a| + |h| && h' == h + xs[q + 1..q']
    ensures 0 <= p < |bs| && bs[..p] + bs[p + 1..] == a + h' + xs[q'..] + tail
  {
    assert bs[..p] == a + h;
    assert xs[q + 1..] == xs[q + 1..q'] + xs[q'..];
    assert bs[p + 1..] == xs[q + 1..] + tail;
  }

  lemma JoinEmpty<T>(a: seq<T>, b: seq<T>, e: seq<T>, c: seq<T>)
    requires e == []
    ensures a + e + b + c == a + b + c && a + b + e + c == a + b + c
  {
  }

  lemma SliceToEnd<T>(xs: seq<T>, a: nat, e: nat)
    requires a <= e == |xs|
    ensures xs[a..e] == xs[a..] && xs[e..] == []
  {
  }

  /** The container while the slots of `start` from rank n on are being
    * removed, before slot i: `front`, then `kept`, the headers between the
    * cut and slot i, then the rest of `start` from slot i (at `at`), then
    * `tail`. */
  predicate TrimState(start: seq<UiBlock>, n: nat, i: nat, moved: nat, front: seq<UiBlock>, tail: seq<UiBlock>,
                      bs: seq<UiBlock>)
  {
    n <= i <= |Items(start)|
    && moved <= SlotAt(start, n) && |front| == SlotAt(start, n) - moved
    && SlotAt(start, n) <= SlotAt(start, i)
    && bs == front + Headers(start[SlotAt(start, n)..SlotAt(start, i)]) + start[SlotAt(start, i)..] + tail
  }

  /** Before the removal loop: nothing removed, no header kept yet. */
  lemma TrimStateStart(start: seq<UiBlock>, n: nat, moved: nat, front: seq<UiBlock>, tail: seq<UiBlock>,
                       bs: seq<UiBlock>)
    requires n <= |Items(start)| && moved <= SlotAt(start, n) && |front| == SlotAt(start, n) - moved
    requires bs == front + start[SlotAt(start, n)..] + tail
    ensures TrimState(start, n, n, moved, front, tail, bs)
  {
    var cut := SlotAt(start, n);
    assert start[cut..cut] == [];
    JoinEmpty(front, start[cut..], [], tail);
  }

  /** After the removal loop: only the headers from the cut on are left. */
  lemma TrimStateEnd(start: seq<UiBlock>, n: nat, moved: nat, front: seq<UiBlock>, tail: seq<UiBlock>,
                     bs: seq<UiBlock>)
    requires TrimState(start, n, |Items(start)|, moved, front, tail, bs)
    ensures bs == front + Headers(start[SlotAt(start, n)..]) + tail
  {
    var cut := SlotAt(start, n);
    SliceToEnd(start, cut, |start|);
    JoinEmpty(front, Headers(start[cut..]), start[|start|..], tail);
  }

  /** One pass of the removal loop.  The container is `front`, the headers
    * between the cut and slot i, the rest of `start` from slot i, and
    * `tail`; slot i sits at its place less the front blocks moved and the
    * slots removed before it, and removing it leaves the same shape up to
    * slot i + 1. */
  lemma TrimStateStep(start: seq<UiBlock>, n: nat, i: nat, moved: nat, front: seq<UiBlock>, tail: seq<UiBlock>,
                      bs: seq<UiBlock>, p: int)
    requires i < |Items(start)| && TrimState(start, n, i, moved, front, tail, bs)
    requires p == ItemPos(start, i) - moved - (i - n)
    ensures 0 <= p < |bs| && TrimState(start, n, i + 1, moved, front, tail, bs[..p] + bs[p + 1..])
  {
    var cut := SlotAt(start, n);
    var at := SlotAt(start, i);
    var next := SlotAt(start, i + 1);
    TrimBounds(start, n, i);
    TrimJoin(start, cut, at, next, i);
    RemoveJoin(bs, front, Headers(start[cut..at]), start, at, next, tail, Headers(start[cut..next]), p);
  }
}
