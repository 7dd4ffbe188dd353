/** The popularity × budget board of the page-based front end: four quadrants and the
    cards shown in each. */
module GraphPage {
  import opened Wrappers
  import opened Strings
  import opened Seqs
  import opened Trip

  predicate IsPopularBudget(a: Activity) { a.popularity == Popular && a.budget == BudgetTier.Budget }
  predicate IsPopularUpscale(a: Activity) { a.popularity == Popular && a.budget != BudgetTier.Budget }
  predicate IsNicheBudget(a: Activity) { a.popularity == Niche && a.budget == BudgetTier.Budget }
  predicate IsNicheUpscale(a: Activity) { a.popularity == Niche && a.budget != BudgetTier.Budget }

  datatype Quadrants = Quadrants(
    popularBudget: seq<Activity>,
    popularUpscale: seq<Activity>,
    nicheBudget: seq<Activity>,
    nicheUpscale: seq<Activity>)

  /** The four `filter`s over the itinerary. */
  function Bucket(itinerary: seq<Activity>): (q: Quadrants)
    ensures forall a :: a in q.popularBudget <==> a in itinerary && IsPopularBudget(a)
    ensures forall a :: a in q.popularUpscale <==> a in itinerary && IsPopularUpscale(a)
    ensures forall a :: a in q.nicheBudget <==> a in itinerary && IsNicheBudget(a)
    ensures forall a :: a in q.nicheUpscale <==> a in itinerary && IsNicheUpscale(a)
  {
    Quadrants(Filter(itinerary, IsPopularBudget), Filter(itinerary, IsPopularUpscale),
              Filter(itinerary, IsNicheBudget), Filter(itinerary, IsNicheUpscale))
  }

  /** Every activity lies in exactly one quadrant, and Mid-range and Luxury both count as upscale. */
  lemma ExactlyOneQuadrant(a: Activity)
    ensures (if IsPopularBudget(a) then 1 else 0) + (if IsPopularUpscale(a) then 1 else 0)
          + (if IsNicheBudget(a) then 1 else 0) + (if IsNicheUpscale(a) then 1 else 0) == 1
    ensures a.budget == MidRange || a.budget == Luxury ==> IsPopularUpscale(a) || IsNicheUpscale(a)
  {
  }

  /** The quadrants partition the itinerary: together they hold each activity as often as
      the itinerary does. */
  lemma QuadrantsPartition(itinerary: seq<Activity>)
    ensures var q := Bucket(itinerary);
      multiset(q.popularBudget) + multiset(q.popularUpscale) + multiset(q.nicheBudget) + multiset(q.nicheUpscale)
        == multiset(itinerary)
  {
    FiltersPartition(itinerary);
  }

  lemma {:induction false} FiltersPartition(itinerary: seq<Activity>)
    ensures multiset(Filter(itinerary, IsPopularBudget)) + multiset(Filter(itinerary, IsPopularUpscale))
          + multiset(Filter(itinerary, IsNicheBudget)) + multiset(Filter(itinerary, IsNicheUpscale))
        == multiset(itinerary)
    decreases |itinerary|
  {
    if itinerary != [] {
      var init := itinerary[..|itinerary| - 1];
      var a := itinerary[|itinerary| - 1];
      FiltersPartition(init);
      MultisetLast(itinerary);
      var pb := Step(itinerary, IsPopularBudget);
      var pu := Step(itinerary, IsPopularUpscale);
      var nb := Step(itinerary, IsNicheBudget);
      var nu := Step(itinerary, IsNicheUpscale);
      assert pb + pu + nb + nu == multiset{a} by {
        ExactlyOneQuadrant(a);
      }
      Regroup(multiset(Filter(init, IsPopularBudget)), multiset(Filter(init, IsPopularUpscale)),
              multiset(Filter(init, IsNicheBudget)), multiset(Filter(init, IsNicheUpscale)), pb, pu, nb, nu);
    }
  }

  /** What the last activity adds to a filter: itself when it passes the test. */
  function Step(s: seq<Activity>, p: Activity -> bool): (added: multiset<Activity>)
    requires s != []
    ensures multiset(Filter(s, p)) == multiset(Filter(s[..|s| - 1], p)) + added
    ensures added == if p(s[|s| - 1]) then multiset{s[|s| - 1]} else multiset{}
  {
    if p(s[|s| - 1]) then multiset{s[|s| - 1]} else multiset{}
  }

  /** `xs[k]` when it exists: a display slot that is empty past the end. */
  function Slot(xs: seq<Activity>, k: nat): (r: Option<Activity>)
    ensures r.Some? <==> k < |xs|
    ensures r.Some? ==> r.value == xs[k]
  {
    if k < |xs| then Some(xs[k]) else None
  }

  function Slots(xs: seq<Activity>, n: nat): (r: seq<Option<Activity>>)
    ensures |r| == n && forall k :: 0 <= k < n ==> r[k] == Slot(xs, k)
  {
    seq(n, k requires 0 <= k < n => Slot(xs, k))
  }

  /** The cards on the board: one popular-budget slot, three niche-budget, two
      popular-upscale and two niche-upscale; the rest of a quadrant is not shown. */
  datatype Board = Board(
    popularBudget: seq<Option<Activity>>,
    nicheBudget: seq<Option<Activity>>,
    popularUpscale: seq<Option<Activity>>,
    nicheUpscale: seq<Option<Activity>>)

  function Shown(q: Quadrants): (b: Board)
    ensures |b.popularBudget| == 1 && |b.nicheBudget| == 3 && |b.popularUpscale| == 2 && |b.nicheUpscale| == 2
    ensures b.popularBudget[0] == Slot(q.popularBudget, 0)
    ensures forall k :: 0 <= k < 3 ==> b.nicheBudget[k] == Slot(q.nicheBudget, k)
    ensures forall k :: 0 <= k < 2 ==> b.popularUpscale[k] == Slot(q.popularUpscale, k)
    ensures forall k :: 0 <= k < 2 ==> b.nicheUpscale[k] == Slot(q.nicheUpscale, k)
  {
    Board(Slots(q.popularBudget, 1), Slots(q.nicheBudget, 3), Slots(q.popularUpscale, 2), Slots(q.nicheUpscale, 2))
  }

  /** A shown card is an activity of its quadrant, and shown cards keep the quadrant's order. */
  lemma ShownInOrder(xs: seq<Activity>, n: nat, i: nat, j: nat)
    requires i < j < n && Slots(xs, n)[j].Some?
    ensures Slots(xs, n)[i].Some? && Slots(xs, n)[i].value == xs[i] && Slots(xs, n)[j].value == xs[j]
  {
  }

  /** `description.split(' ').slice(0, 5).join(' ') + '...'`. */
  function Caption(description: string): string {
    Join(Take(Split(description, " "), 5), " ") + "..."
  }

  /** A description of at most five words is shown whole, followed by "...". */
  lemma ShortCaption(description: string)
    requires |Split(description, " ")| <= 5
    ensures Caption(description) == description + "..."
  {
    JoinSplit(description, " ");
  }

  /** The caption's text before "..." is a prefix of the description. */
  lemma CaptionIsPrefix(description: string)
    ensures var c := Caption(description);
      |c| >= 3 && c[|c| - 3..] == "..." && IsPrefix(c[..|c| - 3], description)
  {
    JoinTakeSplitPrefix(description, " ", 5);
    var c := Caption(description);
    assert c[..|c| - 3] == Join(Take(Split(description, " "), 5), " ");
  }

  predicate IsPrefix(p: string, s: string) {
    |p| <= |s| && s[..|p|] == p
  }

  /** Joining the first `n` pieces gives a prefix of joining them all. */
  lemma {:induction false} JoinTakePrefix(parts: seq<string>, sep: string, n: nat)
    ensures IsPrefix(Join(Take(parts, n), sep), Join(parts, sep))
    decreases |parts|
  {
    if 0 < n < |parts| {
      var whole := Join(parts, sep);
      assert whole == parts[0] + sep + Join(parts[1..], sep);
      if n == 1 {
        assert Take(parts, n) == [parts[0]];
      } else {
        var taken := Take(parts, n);
        assert taken[1..] == Take(parts[1..], n - 1) by {
          assert taken == parts[..n];
          assert parts[1..][..n - 1] == parts[1..n];
        }
        JoinTakePrefix(parts[1..], sep, n - 1);
        var inner := Join(taken[1..], sep);
        assert Join(taken, sep) == parts[0] + sep + inner;
        assert whole[..|parts[0] + sep| + |inner|] == parts[0] + sep + Join(parts[1..], sep)[..|inner|];
      }
    }
  }

  /** Joining the first `n` pieces of a split gives a prefix of the text. */
  lemma JoinTakeSplitPrefix(s: string, sep: string, n: nat)
    requires |sep| > 0
    ensures IsPrefix(Join(Take(Split(s, sep), n), sep), s)
  {
    JoinTakePrefix(Split(s, sep), sep, n);
    JoinSplit(s, sep);
  }
}
