/** Several groups of tasks enqueued as one sequence, each spaced by its share of the total. Keys are
    exact fractions: the key of a group's item is its rank over the group's size, and two keys are
    compared by cross multiplication. */
module Interleave {
  /** The item at a rank, counted from zero, of a group. */
  datatype Item = Item(group: nat, index: nat)

  predicate Placed(counts: seq<nat>, x: Item) {
    x.group < |counts| && x.index < counts[x.group]
  }

  predicate KeyLess(counts: seq<nat>, x: Item, y: Item)
    requires Placed(counts, x) && Placed(counts, y)
  {
    (x.index + 1) * counts[y.group] < (y.index + 1) * counts[x.group]
  }

  /** Listed earlier: groups in the order given, items in rank order. */
  predicate ListedBefore(x: Item, y: Item) {
    x.group < y.group || (x.group == y.group && x.index < y.index)
  }

  /** Smaller key, and in the order listed where keys are equal: what a stable sort on keys gives. */
  predicate Before(counts: seq<nat>, x: Item, y: Item) {
    Placed(counts, x) && Placed(counts, y)
    && (KeyLess(counts, x, y) || (!KeyLess(counts, y, x) && ListedBefore(x, y)))
  }

  ghost predicate Ordered(counts: seq<nat>, s: seq<Item>) {
    forall i, j | 0 <= i < j < |s| :: Before(counts, s[i], s[j])
  }

  /** One step of the stable sort: past every item with a larger key. */
  function Insert(counts: seq<nat>, s: seq<Item>, x: Item): seq<Item>
    requires Placed(counts, x) && forall y | y in s :: Placed(counts, y)
  {
    if s == [] || !KeyLess(counts, x, s[|s| - 1]) then s + [x]
    else Insert(counts, s[..|s| - 1], x) + [s[|s| - 1]]
  }

  /** Every group's items, as the comprehension lists them: the first `items` of the group after
      `groups` whole groups. */
  function Listing(counts: seq<nat>, groups: nat, items: nat): (r: seq<Item>)
    requires groups < |counts| && items <= counts[groups]
    ensures forall y | y in r :: Placed(counts, y)
    decreases groups, items
  {
    if items > 0 then Listing(counts, groups, items - 1) + [Item(groups, items - 1)]
    else if groups > 0 then Listing(counts, groups - 1, counts[groups - 1])
    else []
  }

  function StableSort(counts: seq<nat>, listed: seq<Item>): (r: seq<Item>)
    requires forall y | y in listed :: Placed(counts, y)
    ensures multiset(r) == multiset(listed) && forall y | y in r :: Placed(counts, y)
  {
    if listed == [] then []
    else
      var sorted := StableSort(counts, listed[..|listed| - 1]);
      assert listed == listed[..|listed| - 1] + [listed[|listed| - 1]];
      InsertAdds(counts, sorted, listed[|listed| - 1]);
      Insert(counts, sorted, listed[|listed| - 1])
  }

  lemma {:induction false} InsertAdds(counts: seq<nat>, s: seq<Item>, x: Item)
    requires Placed(counts, x) && forall y | y in s :: Placed(counts, y)
    ensures multiset(Insert(counts, s, x)) == multiset(s) + multiset{x}
    ensures forall y | y in Insert(counts, s, x) :: Placed(counts, y)
  {
    var r := Insert(counts, s, x);
    if s != [] && KeyLess(counts, x, s[|s| - 1]) {
      InsertAdds(counts, s[..|s| - 1], x);
      assert s == s[..|s| - 1] + [s[|s| - 1]];
    }
    forall y | y in r ensures Placed(counts, y) {
      assert y in multiset(r);
    }
  }

  /** `interleave_by_share`. */
  function InterleaveByShare(counts: seq<nat>): seq<Item> {
    if counts == [] then [] else StableSort(counts, Listing(counts, |counts| - 1, counts[|counts| - 1]))
  }

  /*******************************************************************************
   *  Order
   *******************************************************************************/

  lemma Scaled(a: int, b: int, c: int)
    requires c > 0
    ensures a < b <==> a * c < b * c
  {
    if a < b {
      assert (b - a) * c > 0;
    } else {
      assert (a - b) * c >= 0;
    }
  }

  lemma ProductsChain(a: int, b: int, c: int, ca: int, cb: int, cc: int)
    requires ca > 0 && cb > 0 && cc > 0
    requires a * cb <= b * ca && b * cc <= c * cb
    ensures a * cc <= c * ca
    ensures (a * cb < b * ca || b * cc < c * cb) ==> a * cc < c * ca
  {
    Scaled(a * cb, b * ca, cc);
    Scaled(b * ca, a * cb, cc);
    Scaled(b * cc, c * cb, ca);
    Scaled(c * cb, b * cc, ca);
    Scaled(a * cc, c * ca, cb);
    Scaled(c * ca, a * cc, cb);
    assert (a * cc) * cb == (a * cb) * cc && (b * ca) * cc == (b * cc) * ca && (c * cb) * ca == (c * ca) * cb;
  }

  lemma BeforeIsTransitive(counts: seq<nat>, x: Item, y: Item, z: Item)
    requires Before(counts, x, y) && Before(counts, y, z)
    ensures Before(counts, x, z)
  {
    ProductsChain(x.index + 1, y.index + 1, z.index + 1, counts[x.group], counts[y.group], counts[z.group]);
  }

  lemma OrderedWithLast(counts: seq<nat>, s: seq<Item>, x: Item)
    requires Ordered(counts, s) && (s != [] ==> Before(counts, s[|s| - 1], x))
    ensures Ordered(counts, s + [x])
  {
    forall i | 0 <= i < |s| ensures Before(counts, s[i], x) {
      if i < |s| - 1 {
        BeforeIsTransitive(counts, s[i], s[|s| - 1], x);
      }
    }
  }

  lemma {:induction false} InsertKeepsOrder(counts: seq<nat>, s: seq<Item>, x: Item)
    requires Ordered(counts, s) && Placed(counts, x)
    requires forall y | y in s :: Placed(counts, y) && ListedBefore(y, x)
    ensures Ordered(counts, Insert(counts, s, x))
  {
    if s == [] || !KeyLess(counts, x, s[|s| - 1]) {
      OrderedWithLast(counts, s, x);
    } else {
      var front, last := s[..|s| - 1], s[|s| - 1];
      InsertKeepsOrder(counts, front, x);
      LastOfInsert(counts, front, x);
      OrderedWithLast(counts, Insert(counts, front, x), last);
    }
  }

  lemma LastOfInsert(counts: seq<nat>, s: seq<Item>, x: Item)
    requires Placed(counts, x) && forall y | y in s :: Placed(counts, y)
    ensures var r := Insert(counts, s, x); r != [] && (r[|r| - 1] == x || (s != [] && r[|r| - 1] == s[|s| - 1]))
  {
  }

  lemma RanksDecideInAGroup(counts: seq<nat>, x: Item, y: Item)
    requires Placed(counts, x) && Placed(counts, y) && x.group == y.group
    ensures KeyLess(counts, x, y) <==> x.index < y.index
  {
    var c := counts[x.group];
    if x.index < y.index {
      assert (x.index + 1) * c < (y.index + 1) * c;
    } else {
      assert (x.index + 1) * c >= (y.index + 1) * c;
    }
  }

  ghost predicate Ascending(s: seq<Item>) {
    forall i, j | 0 <= i < j < |s| :: ListedBefore(s[i], s[j])
  }

  lemma {:induction false} SortKeepsOrder(counts: seq<nat>, listed: seq<Item>)
    requires Ascending(listed) && forall y | y in listed :: Placed(counts, y)
    ensures Ordered(counts, StableSort(counts, listed))
  {
    if listed != [] {
      var front, last := listed[..|listed| - 1], listed[|listed| - 1];
      SortKeepsOrder(counts, front);
      var sorted := StableSort(counts, front);
      forall y | y in sorted ensures ListedBefore(y, last) {
        assert y in multiset(front);
        var i :| 0 <= i < |front| && front[i] == y;
        assert ListedBefore(listed[i], listed[|listed| - 1]);
      }
      InsertKeepsOrder(counts, sorted, last);
    }
  }

  lemma {:induction false} ListingIsWhole(counts: seq<nat>, groups: nat, items: nat)
    requires groups < |counts| && items <= counts[groups]
    ensures var r := Listing(counts, groups, items);
      && Ascending(r)
      && |r| == Sum(counts[..groups]) + items
      && forall y :: y in r <==> Placed(counts, y) && (y.group < groups || (y.group == groups && y.index < items))
    decreases groups, items
  {
    if items > 0 {
      ListingIsWhole(counts, groups, items - 1);
    } else if groups > 0 {
      ListingIsWhole(counts, groups - 1, counts[groups - 1]);
      assert counts[..groups] == counts[..groups - 1] + [counts[groups - 1]];
      SumOfAppend(counts[..groups - 1], counts[groups - 1]);
    }
  }

  function Sum(s: seq<int>): int {
    if s == [] then 0 else Sum(s[..|s| - 1]) + s[|s| - 1]
  }

  lemma SumOfAppend(s: seq<int>, x: int)
    ensures Sum(s + [x]) == Sum(s) + x
  {
    assert (s + [x])[..|s|] == s;
  }

  /** Ordered by exact key, ties as listed, and holding every group's every item once and no other. */
  ghost predicate Interleaves(counts: seq<nat>, r: seq<Item>) {
    Ordered(counts, r) && forall y :: y in r <==> Placed(counts, y)
  }

  lemma InterleavingIsAPermutation(counts: seq<nat>)
    ensures Interleaves(counts, InterleaveByShare(counts))
    ensures |InterleaveByShare(counts)| == Sum(counts)
  {
    if counts != [] {
      var last := |counts| - 1;
      ListingIsWhole(counts, last, counts[last]);
      var listed, r := Listing(counts, last, counts[last]), InterleaveByShare(counts);
      SortKeepsOrder(counts, listed);
      assert |r| == |multiset(r)| == |listed|;
      forall y ensures y in r <==> y in listed {
        assert y in r <==> y in multiset(r);
        assert y in listed <==> y in multiset(listed);
      }
    }
  }

  /** A group's items keep their order, and no item comes twice. */
  lemma GroupOrderIsKept(counts: seq<nat>, r: seq<Item>, i: nat, j: nat)
    requires Interleaves(counts, r) && i < j < |r|
    ensures r[i] != r[j]
    ensures r[i].group == r[j].group ==> r[i].index < r[j].index
  {
    assert Before(counts, r[i], r[j]);
    if r[i].group == r[j].group {
      RanksDecideInAGroup(counts, r[i], r[j]);
    }
  }

  /*******************************************************************************
   *  Discrepancy
   *******************************************************************************/

  /** How many of a group's items a sequence holds. */
  function Tally(s: seq<Item>, group: nat): nat {
    if s == [] then 0 else Tally(s[..|s| - 1], group) + if s[|s| - 1].group == group then 1 else 0
  }

  function Tallies(s: seq<Item>, groups: nat): (r: seq<int>)
    ensures |r| == groups && forall g | 0 <= g < groups :: r[g] == Tally(s, g)
  {
    seq(groups, (g: nat) => Tally(s, g))
  }

  lemma {:induction false} SumOfUpdate(s: seq<int>, k: nat, more: int)
    requires k < |s|
    ensures Sum(s[k := s[k] + more]) == Sum(s) + more
  {
    var r := s[k := s[k] + more];
    if k == |s| - 1 {
      assert r[..k] == s[..k];
    } else {
      SumOfUpdate(s[..|s| - 1], k, more);
      assert r[..|s| - 1] == s[..|s| - 1][k := s[k] + more];
    }
  }

  lemma {:induction false} SumOfZeros(s: seq<int>)
    requires forall i | 0 <= i < |s| :: s[i] == 0
    ensures Sum(s) == 0
  {
    if s != [] {
      SumOfZeros(s[..|s| - 1]);
    }
  }

  lemma {:induction false} TalliesCoverThePrefix(counts: seq<nat>, s: seq<Item>)
    requires forall y | y in s :: Placed(counts, y)
    ensures Sum(Tallies(s, |counts|)) == |s|
  {
    if s == [] {
      SumOfZeros(Tallies(s, |counts|));
    } else {
      var front, last := s[..|s| - 1], s[|s| - 1];
      assert last in s;
      TalliesCoverThePrefix(counts, front);
      var before := Tallies(front, |counts|);
      SumOfUpdate(before, last.group, 1);
      assert Tallies(s, |counts|) == before[last.group := before[last.group] + 1];
    }
  }

  /** A prefix holds exactly the first so many items of each group. */
  ghost predicate HoldsFirstRanks(counts: seq<nat>, s: seq<Item>) {
    && (forall x | Placed(counts, x) :: x in s <==> x.index < Tally(s, x.group))
    && (forall g | 0 <= g < |counts| :: Tally(s, g) <= counts[g])
  }

  lemma NextRank(counts: seq<nat>, r: seq<Item>, p: nat)
    requires Interleaves(counts, r) && p < |r| && HoldsFirstRanks(counts, r[..p])
    ensures r[p].index == Tally(r[..p], r[p].group)
  {
    var here := r[p];
    assert here in r;
    if here in r[..p] {
      var q :| 0 <= q < p && r[q] == here;
      GroupOrderIsKept(counts, r, q, p);
    }
    var next := Item(here.group, Tally(r[..p], here.group));
    if next.index < here.index {
      assert next in r && next !in r[..p];
      var q :| 0 <= q < |r| && r[q] == next;
      if p < q {
        GroupOrderIsKept(counts, r, p, q);
      }
    }
  }

  lemma TallyOfAppend(s: seq<Item>, x: Item, group: nat)
    ensures Tally(s + [x], group) == Tally(s, group) + if x.group == group then 1 else 0
  {
    assert (s + [x])[..|s|] == s;
  }

  lemma NextRankKeepsHolding(counts: seq<nat>, s: seq<Item>, x: Item)
    requires HoldsFirstRanks(counts, s) && Placed(counts, x) && x.index == Tally(s, x.group)
    ensures HoldsFirstRanks(counts, s + [x])
  {
    forall g: nat ensures Tally(s + [x], g) == Tally(s, g) + if x.group == g then 1 else 0 {
      TallyOfAppend(s, x, g);
    }
  }

  lemma OneMoreHolds(counts: seq<nat>, r: seq<Item>, p: nat)
    requires Interleaves(counts, r) && p < |r| && HoldsFirstRanks(counts, r[..p])
    ensures HoldsFirstRanks(counts, r[..p + 1])
  {
    NextRank(counts, r, p);
    assert r[p] in r;
    NextRankKeepsHolding(counts, r[..p], r[p]);
    assert r[..p + 1] == r[..p] + [r[p]];
  }

  lemma {:induction false} PrefixHoldsFirstRanks(counts: seq<nat>, r: seq<Item>, p: nat)
    requires Interleaves(counts, r) && p <= |r|
    ensures HoldsFirstRanks(counts, r[..p])
  {
    if p == 0 {
      assert r[..0] == [];
    } else {
      PrefixHoldsFirstRanks(counts, r, p - 1);
      OneMoreHolds(counts, r, p - 1);
    }
  }

  function Live(count: nat): nat {
    if count > 0 then 1 else 0
  }

  lemma TallyAtMost(counts: seq<nat>, r: seq<Item>, p: nat, g: nat)
    requires Interleaves(counts, r) && 0 < p <= |r| && g < |counts| && Placed(counts, r[p - 1])
    requires HoldsFirstRanks(counts, r[..p])
    ensures Tally(r[..p], g) * counts[r[p - 1].group] <= (r[p - 1].index + 1) * counts[g]
  {
    if Tally(r[..p], g) > 0 {
      NoLargerKeyLetIn(counts, r, p, Item(g, Tally(r[..p], g) - 1));
    }
  }

  lemma TallyAtLeast(counts: seq<nat>, r: seq<Item>, p: nat, g: nat)
    requires Interleaves(counts, r) && 0 < p <= |r| && g < |counts| && Placed(counts, r[p - 1])
    requires HoldsFirstRanks(counts, r[..p])
    ensures (r[p - 1].index + 1) * counts[g] <= (Tally(r[..p], g) + Live(counts[g])) * counts[r[p - 1].group]
  {
    if Tally(r[..p], g) < counts[g] {
      NoSmallerKeyLeftOut(counts, r, p, Item(g, Tally(r[..p], g)));
    } else {
      RankWithinGroup(r[p - 1].index + 1, counts[r[p - 1].group], counts[g]);
    }
  }

  /** Each group's tally in a prefix, measured against the key of the prefix's last item: no smaller
      key is left out, and no larger one let in. */
  lemma TallyAgainstTheLastKey(counts: seq<nat>, r: seq<Item>, p: nat, g: nat)
    requires Interleaves(counts, r) && 0 < p <= |r| && g < |counts|
    ensures Placed(counts, r[p - 1])
    ensures Tally(r[..p], g) * counts[r[p - 1].group] <= (r[p - 1].index + 1) * counts[g]
    ensures (r[p - 1].index + 1) * counts[g] <= (Tally(r[..p], g) + Live(counts[g])) * counts[r[p - 1].group]
  {
    assert r[p - 1] in r;
    PrefixHoldsFirstRanks(counts, r, p);
    TallyAtMost(counts, r, p, g);
    TallyAtLeast(counts, r, p, g);
  }

  lemma RankWithinGroup(key: nat, size: nat, count: nat)
    requires key <= size
    ensures key * count <= (count + Live(count)) * size
  {
    assert key * count + (size - key) * count == size * count;
  }

  lemma LastIsCounted(counts: seq<nat>, r: seq<Item>, p: nat)
    requires Interleaves(counts, r) && 0 < p <= |r|
    ensures Tally(r[..p], r[p - 1].group) == r[p - 1].index + 1
  {
    assert r[p - 1].index == Tally(r[..p - 1], r[p - 1].group) by {
      PrefixHoldsFirstRanks(counts, r, p - 1);
      NextRank(counts, r, p - 1);
    }
    TallyOfAppend(r[..p - 1], r[p - 1], r[p - 1].group);
    assert r[..p] == r[..p - 1] + [r[p - 1]];
  }

  lemma NoLargerKeyLetIn(counts: seq<nat>, r: seq<Item>, p: nat, x: Item)
    requires Interleaves(counts, r) && 0 < p <= |r| && x in r[..p]
    ensures Placed(counts, x) && Placed(counts, r[p - 1])
    ensures (x.index + 1) * counts[r[p - 1].group] <= (r[p - 1].index + 1) * counts[x.group]
  {
    var q :| 0 <= q < p && r[q] == x;
    assert r[q] in r && r[p - 1] in r;
    if q < p - 1 {
      assert Before(counts, r[q], r[p - 1]);
    }
  }

  lemma NoSmallerKeyLeftOut(counts: seq<nat>, r: seq<Item>, p: nat, x: Item)
    requires Interleaves(counts, r) && 0 < p <= |r| && Placed(counts, x) && x !in r[..p]
    ensures Placed(counts, r[p - 1])
    ensures (r[p - 1].index + 1) * counts[x.group] <= (x.index + 1) * counts[r[p - 1].group]
  {
    assert x in r && r[p - 1] in r;
    var q :| 0 <= q < |r| && r[q] == x;
    assert forall k | 0 <= k < p :: r[k] in r[..p];
    assert Before(counts, r[p - 1], r[q]);
  }

  lemma {:induction false} WeightedSum(a: seq<int>, b: seq<int>, x: int, y: int)
    requires |a| == |b| && forall i | 0 <= i < |a| :: a[i] * x <= y * b[i]
    ensures Sum(a) * x <= y * Sum(b)
  {
    if a != [] {
      var front := |a| - 1;
      WeightedSum(a[..front], b[..front], x, y);
      assert Sum(a) * x == Sum(a[..front]) * x + a[front] * x;
      assert y * Sum(b) == y * Sum(b[..front]) + y * b[front];
    }
  }

  /** The groups that hold anything. */
  function LiveGroups(counts: seq<nat>): (r: seq<int>)
    ensures |r| == |counts| && forall g | 0 <= g < |counts| :: r[g] == Live(counts[g])
  {
    seq(|counts|, (g: nat) requires g < |counts| => Live(counts[g]))
  }

  function Plus(a: seq<int>, b: seq<int>): (r: seq<int>)
    requires |a| == |b|
    ensures |r| == |a| && forall i | 0 <= i < |a| :: r[i] == a[i] + b[i]
  {
    seq(|a|, (i: nat) requires i < |a| => a[i] + b[i])
  }

  lemma {:induction false} SumOfPlus(a: seq<int>, b: seq<int>)
    requires |a| == |b|
    ensures Sum(Plus(a, b)) == Sum(a) + Sum(b)
  {
    if a != [] {
      SumOfPlus(a[..|a| - 1], b[..|a| - 1]);
      assert Plus(a, b)[..|a| - 1] == Plus(a[..|a| - 1], b[..|a| - 1]);
    }
  }

  /** A prefix's length, and one item more for each group that holds anything except one. */
  function Allowance(counts: seq<nat>, p: nat): int {
    p + Sum(LiveGroups(counts)) - 1
  }

  /** The prefix's length against its last key: at most the whole listing's share of that key ... */
  lemma LengthAtMost(counts: seq<nat>, r: seq<Item>, p: nat)
    requires Interleaves(counts, r) && 0 < p <= |r|
    ensures Placed(counts, r[p - 1])
    ensures p * counts[r[p - 1].group] <= (r[p - 1].index + 1) * Sum(counts)
  {
    var last, tallies := r[p - 1], Tallies(r[..p], |counts|);
    assert last in r;
    forall y | y in r[..p] ensures Placed(counts, y) {
      assert y in r;
    }
    TalliesCoverThePrefix(counts, r[..p]);
    forall g | 0 <= g < |counts| ensures tallies[g] * counts[last.group] <= (last.index + 1) * counts[g] {
      TallyAgainstTheLastKey(counts, r, p, g);
    }
    WeightedSum(tallies, counts, counts[last.group], last.index + 1);
  }

  /** The tallies, with one item more for each group that holds anything except one. */
  function Padded(counts: seq<nat>, s: seq<Item>, except: nat): (r: seq<int>)
    requires except < |counts|
    ensures |r| == |counts|
    ensures forall g | 0 <= g < |counts| :: r[g] == Tally(s, g) + Live(counts[g]) - if g == except then 1 else 0
  {
    var padded := Plus(Tallies(s, |counts|), LiveGroups(counts));
    padded[except := padded[except] - 1]
  }

  lemma PaddedSum(counts: seq<nat>, s: seq<Item>, except: nat)
    requires except < |counts| && forall y | y in s :: Placed(counts, y)
    ensures Sum(Padded(counts, s, except)) == |s| + Sum(LiveGroups(counts)) - 1
  {
    TalliesCoverThePrefix(counts, s);
    SumOfPlus(Tallies(s, |counts|), LiveGroups(counts));
    SumOfUpdate(Plus(Tallies(s, |counts|), LiveGroups(counts)), except, -1);
  }

  /** ... and, allowing each other group that holds anything one item more, at least that share. */
  lemma LengthAtLeast(counts: seq<nat>, r: seq<Item>, p: nat)
    requires Interleaves(counts, r) && 0 < p <= |r|
    ensures Placed(counts, r[p - 1])
    ensures (r[p - 1].index + 1) * Sum(counts) <= Allowance(counts, p) * counts[r[p - 1].group]
  {
    assert r[p - 1] in r;
    var upper := UpperShares(counts, r, p);
    WeightedSum(counts, upper, r[p - 1].index + 1, counts[r[p - 1].group]);
  }

  lemma UpperShares(counts: seq<nat>, r: seq<Item>, p: nat) returns (upper: seq<int>)
    requires Interleaves(counts, r) && 0 < p <= |r|
    ensures |upper| == |counts| && Placed(counts, r[p - 1])
    ensures Sum(upper) == Allowance(counts, p)
    ensures forall g | 0 <= g < |counts| :: counts[g] * (r[p - 1].index + 1) <= counts[r[p - 1].group] * upper[g]
  {
    assert r[p - 1] in r;
    forall y | y in r[..p] ensures Placed(counts, y) {
      assert y in r;
    }
    PaddedSum(counts, r[..p], r[p - 1].group);
    upper := Padded(counts, r[..p], r[p - 1].group);
    forall g | 0 <= g < |counts| ensures counts[g] * (r[p - 1].index + 1) <= counts[r[p - 1].group] * upper[g] {
      PaddedTally(counts, r, p, g);
    }
  }

  lemma PaddedTally(counts: seq<nat>, r: seq<Item>, p: nat, g: nat)
    requires Interleaves(counts, r) && 0 < p <= |r| && g < |counts|
    ensures Placed(counts, r[p - 1])
    ensures var last, tally := r[p - 1], Tally(r[..p], g);
      counts[g] * (last.index + 1)
      <= counts[last.group] * (tally + Live(counts[g]) - if g == last.group then 1 else 0)
  {
    TallyAgainstTheLastKey(counts, r, p, g);
    LastIsCounted(counts, r, p);
  }

  lemma LeScaled(a: int, b: int, c: nat)
    requires a <= b
    ensures a * c <= b * c
  {
    assert (b - a) * c >= 0;
  }

  lemma Factors(a: int, b: int, c: int)
    ensures (a * b) * c == (a * c) * b
  {
  }

  /** Both sides against one key: the key and its group's size cancel. */
  lemma CrossCancel(a: int, x: nat, b: int, y: nat, key: int, size: int)
    requires size > 0 && a * size <= key * x && key * y <= b * size
    ensures a * y <= b * x
  {
    LeScaled(a * size, key * x, y);
    LeScaled(key * y, b * size, x);
    Factors(key, x, y);
    Factors(a, size, y);
    Factors(b, size, x);
    Scaled(b * x, a * y, size);
  }

  lemma {:induction false} SumAtLeast(s: seq<int>, k: nat)
    requires k < |s| && forall i | 0 <= i < |s| :: s[i] >= 0
    ensures Sum(s) >= s[k] >= 0
  {
    if k < |s| - 1 {
      SumAtLeast(s[..|s| - 1], k);
    } else if k > 0 {
      SumAtLeast(s[..|s| - 1], k - 1);
    }
  }

  lemma NonEmptyIsNotShort(counts: seq<nat>, r: seq<Item>, p: nat, g: nat)
    requires Interleaves(counts, r) && 0 < p <= |r| && g < |counts| && Sum(counts) >= 0
    ensures p * counts[g] <= (Tally(r[..p], g) + Live(counts[g])) * Sum(counts)
  {
    LengthAtMost(counts, r, p);
    TallyAgainstTheLastKey(counts, r, p, g);
    var bound, key, size := Tally(r[..p], g) + Live(counts[g]), r[p - 1].index + 1, counts[r[p - 1].group];
    CrossCancel(p, Sum(counts), bound, counts[g], key, size);
  }

  lemma PrefixIsNotShort(counts: seq<nat>, r: seq<Item>, p: nat, g: nat)
    requires Interleaves(counts, r) && p <= |r| && g < |counts|
    ensures p * counts[g] <= (Tally(r[..p], g) + Live(counts[g])) * Sum(counts)
  {
    SumAtLeast(counts, g);
    if p == 0 {
      LeScaled(0, Live(counts[g]), Sum(counts));
    } else {
      NonEmptyIsNotShort(counts, r, p, g);
    }
  }

  lemma NonEmptyIsNotOver(counts: seq<nat>, r: seq<Item>, p: nat, g: nat)
    requires Interleaves(counts, r) && 0 < p <= |r| && g < |counts| && Sum(counts) >= 0
    ensures Tally(r[..p], g) * Sum(counts) <= Allowance(counts, p) * counts[g]
  {
    LengthAtLeast(counts, r, p);
    TallyAgainstTheLastKey(counts, r, p, g);
    var allowed, key, size := Allowance(counts, p), r[p - 1].index + 1, counts[r[p - 1].group];
    CrossCancel(Tally(r[..p], g), counts[g], allowed, Sum(counts), key, size);
  }

  lemma EmptyIsNotOver(counts: seq<nat>, g: nat)
    requires g < |counts|
    ensures 0 <= Allowance(counts, 0) * counts[g]
  {
    SumAtLeast(LiveGroups(counts), g);
    if counts[g] > 0 {
      LeScaled(0, Allowance(counts, 0), counts[g]);
    }
  }

  lemma PrefixIsNotOver(counts: seq<nat>, r: seq<Item>, p: nat, g: nat)
    requires Interleaves(counts, r) && p <= |r| && g < |counts|
    ensures Tally(r[..p], g) * Sum(counts) <= Allowance(counts, p) * counts[g]
  {
    if p == 0 {
      EmptyIsNotOver(counts, g);
    } else {
      SumAtLeast(counts, g);
      NonEmptyIsNotOver(counts, r, p, g);
    }
  }

  /** Every prefix holds nearly its fair share of each group: short by no more than one item, and over by
      no more than the other groups' number times the group's share of the total. */
  lemma EveryPrefixIsFair(counts: seq<nat>, p: nat, g: nat)
    requires p <= |InterleaveByShare(counts)| && g < |counts|
    ensures var tally := Tally(InterleaveByShare(counts)[..p], g);
      && p * counts[g] <= (tally + Live(counts[g])) * Sum(counts)
      && tally * Sum(counts) <= Allowance(counts, p) * counts[g]
  {
    InterleavingIsAPermutation(counts);
    PrefixIsNotShort(counts, InterleaveByShare(counts), p, g);
    PrefixIsNotOver(counts, InterleaveByShare(counts), p, g);
  }

  lemma WithinOneArithmetic(p: int, tally: int, live: int, groups: int, count: nat, total: int)
    requires p * count <= (tally + live) * total && tally * total <= (p + groups - 1) * count
    requires live <= 1 && groups <= 2 && count <= total
    ensures -total <= tally * total - p * count <= total
  {
    LeScaled(live, 1, total);
    LeScaled(groups - 1, 1, count);
    assert (tally + live) * total == tally * total + live * total;
    assert (p + groups - 1) * count == p * count + (groups - 1) * count;
  }

  lemma SumOfTwo(s: seq<int>)
    requires |s| == 2
    ensures Sum(s) == s[0] + s[1]
  {
    assert s[..1] == [s[0]] && Sum([s[0]]) == Sum([]) + s[0] by {
      assert [s[0]][..0] == [];
    }
  }

  lemma PrefixOfTwoGroups(counts: seq<nat>, r: seq<Item>, p: nat, g: nat)
    requires |counts| == 2 && g < 2 && Interleaves(counts, r) && p <= |r|
    ensures -Sum(counts) <= Tally(r[..p], g) * Sum(counts) - p * counts[g] <= Sum(counts)
  {
    SumOfTwo(counts);
    SumOfTwo(LiveGroups(counts));
    PrefixIsNotShort(counts, r, p, g);
    PrefixIsNotOver(counts, r, p, g);
    WithinOneArithmetic(p, Tally(r[..p], g), Live(counts[g]), Sum(LiveGroups(counts)), counts[g], Sum(counts));
  }

  /** Two groups: every prefix is within one item of each group's exact share. */
  lemma TwoGroupsAreWithinOne(counts: seq<nat>, p: nat, g: nat)
    requires |counts| == 2 && p <= |InterleaveByShare(counts)| && g < 2
    ensures var tally := Tally(InterleaveByShare(counts)[..p], g);
      -Sum(counts) <= tally * Sum(counts) - p * counts[g] <= Sum(counts)
  {
    InterleavingIsAPermutation(counts);
    PrefixOfTwoGroups(counts, InterleaveByShare(counts), p, g);
  }

  lemma ItemLands(counts: seq<nat>, r: seq<Item>, p: nat)
    requires Interleaves(counts, r) && p < |r|
    ensures Placed(counts, r[p])
    ensures (p + 1) * counts[r[p].group] <= (r[p].index + 1) * Sum(counts)
    ensures (r[p].index + 1) * Sum(counts) <= Allowance(counts, p + 1) * counts[r[p].group]
  {
    LengthAtMost(counts, r, p + 1);
    LengthAtLeast(counts, r, p + 1);
  }

  /** Where an item lands: no later than its exact place, and short of it by no more than the number of
      groups that hold anything. */
  lemma ItemsLandNearTheirPlace(counts: seq<nat>, p: nat)
    requires p < |InterleaveByShare(counts)|
    ensures var x := InterleaveByShare(counts)[p];
      && Placed(counts, x)
      && (p + 1) * counts[x.group] <= (x.index + 1) * Sum(counts)
      && (x.index + 1) * Sum(counts) <= Allowance(counts, p + 1) * counts[x.group]
  {
    InterleavingIsAPermutation(counts);
    ItemLands(counts, InterleaveByShare(counts), p);
  }
}
