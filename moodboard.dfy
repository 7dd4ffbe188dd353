/** The mood board view: the activities a directive names, grouped by category into
    clusters laid out on a circle, each cluster's cards on a circle of their own. */
module MoodBoard {
  import opened Wrappers
  import opened Seqs
  import opened Itinerary
  import Sse

  /** The payload names activities when it has a non-empty `activityIds` array. */
  predicate NamesActivities(payload: Option<Sse.Payload>) {
    payload.Some? && payload.value.activityIds.Some? && |payload.value.activityIds.value| > 0
  }

  /** `fetchAndFilterActivities`: the itinerary's activities whose id is requested, in
      itinerary order; empty when nothing is requested, the fetch fails (`fetched` is None)
      or the document cannot be flattened. */
  function SelectActivities(payload: Option<Sse.Payload>, fetched: Option<Document>): (r: seq<Activity>)
    ensures !NamesActivities(payload) || fetched.None? ==> r == []
    ensures NamesActivities(payload) && fetched.Some? && Flatten(fetched.value).None? ==> r == []
    ensures NamesActivities(payload) && fetched.Some? && Flatten(fetched.value).Some? ==>
      forall a :: a in r <==> a in Flatten(fetched.value).value && a.id in payload.value.activityIds.value
  {
    if !NamesActivities(payload) || fetched.None? then []
    else
      var ids := payload.value.activityIds.value;
      match Flatten(fetched.value)
      case None => []
      case Some(all) => Filter(all, (a: Activity) => a.id in ids)
  }

  /** The fetch effect's state. */
  class Board {
    var activities: seq<Activity>
    var loading: bool

    constructor ()
      ensures activities == [] && loading
    {
      activities := [];
      loading := true;
    }

    /** The effect run for a payload: the selected activities are stored and loading ends. */
    method Load(payload: Option<Sse.Payload>, fetched: Option<Document>)
      modifies this
      ensures activities == SelectActivities(payload, fetched) && !loading
    {
      loading := true;
      activities := SelectActivities(payload, fetched);
      loading := false;
    }
  }

  const Travel := "Travel"

  function CategoriesOf(acts: seq<Activity>): (r: seq<string>)
    ensures |r| == |acts| && forall i :: 0 <= i < |acts| ==> r[i] == acts[i].category
  {
    seq(|acts|, i requires 0 <= i < |acts| => acts[i].category)
  }

  predicate NotTravel(c: string) {
    c != Travel
  }

  /** The clusters: each category once, in order of first occurrence, without 'Travel'. */
  function Categories(acts: seq<Activity>): (r: seq<string>)
    ensures Distinct(r) && Travel !in r
    ensures forall c :: c in r <==> c != Travel && exists a :: a in acts && a.category == c
  {
    var all := CategoriesOf(acts);
    var r := Filter(Dedupe(all), NotTravel);
    FilterDistinct(Dedupe(all), NotTravel);
    assert forall c :: c in all <==> exists a :: a in acts && a.category == c by {
      forall c ensures c in all <==> exists a :: a in acts && a.category == c {
        if c in all {
          var i :| 0 <= i < |all| && all[i] == c;
          assert acts[i] in acts;
        }
        if exists a :: a in acts && a.category == c {
          var a :| a in acts && a.category == c;
          var i :| 0 <= i < |acts| && acts[i] == a;
          assert all[i] == c;
        }
      }
    }
    r
  }

  /** The clusters come in the order in which their categories first occur among the
      activities, so each category's angle is fixed by that order. */
  lemma CategoriesInOrder(acts: seq<Activity>)
    ensures var r := Categories(acts);
      forall i, j :: 0 <= i < j < |r| ==>
        r[i] in CategoriesOf(acts) && r[j] in CategoriesOf(acts)
        && FirstIndex(CategoriesOf(acts), r[i]) < FirstIndex(CategoriesOf(acts), r[j])
  {
    var all := CategoriesOf(acts);
    var r := Categories(acts);
    assert r == Filter(Dedupe(all), NotTravel);
    FilterDedupeOrder(all, NotTravel);
    forall i, j | 0 <= i < j < |r|
      ensures r[i] in all && r[j] in all && FirstIndex(all, r[i]) < FirstIndex(all, r[j])
    {
    }
  }

  function Members(acts: seq<Activity>, category: string): (r: seq<Activity>)
    ensures forall a :: a in r <==> a in acts && a.category == category
  {
    Filter(acts, (a: Activity) => a.category == category)
  }

  datatype Point = Point(x: real, y: real)

  datatype Center = Center(category: string, at: Point)

  const Pi: real := 3.141592653589793
  const CanvasWidth: real := 3000.0
  const CanvasHeight: real := 2000.0
  const CardWidthWithPadding: real := 320.0

  /** `min(width, height) * 0.42`. */
  const MainRadius: real := (if CanvasWidth < CanvasHeight then CanvasWidth else CanvasHeight) * 0.42

  /** The angle between neighbours on a circle of `n`; a count of zero divides by 1. */
  function AngleStep(n: nat): (r: real)
    ensures n == 0 ==> r == 2.0 * Pi
    ensures n > 0 ==> r * (n as real) == 2.0 * Pi
  {
    (2.0 * Pi) / (if n == 0 then 1 else n) as real
  }

  /** The radius of a cluster of `n` cards: enough circumference for them, and at least 250. */
  function ClusterRadius(n: nat): (r: real)
    ensures r >= 250.0
    ensures r >= (n as real) * CardWidthWithPadding / (2.0 * Pi)
    ensures r == 250.0 || r == (n as real) * CardWidthWithPadding / (2.0 * Pi)
  {
    var calculated := (n as real) * CardWidthWithPadding / (2.0 * Pi);
    if 250.0 < calculated then calculated else 250.0
  }

  /** The centre of cluster `i` of `n`, with the cosine and sine left abstract. */
  function ClusterCenterAt(i: nat, n: nat, cos: real -> real, sin: real -> real): Point {
    Point(CanvasWidth / 2.0 + MainRadius * cos(AngleStep(n) * i as real),
          CanvasHeight / 2.0 + MainRadius * sin(AngleStep(n) * i as real))
  }

  /** The position of card `j` of a cluster of `n` around `center`. */
  function CardAt(center: Point, j: nat, n: nat, cos: real -> real, sin: real -> real): Point {
    Point(center.x + ClusterRadius(n) * cos(AngleStep(n) * j as real),
          center.y + ClusterRadius(n) * sin(AngleStep(n) * j as real))
  }

  /** The squared distance between two points. */
  function DistSq(p: Point, q: Point): real {
    (p.x - q.x) * (p.x - q.x) + (p.y - q.y) * (p.y - q.y)
  }

  /** A point `radius` away along the direction (c, s) of a unit vector. */
  lemma OnCircle(center: Point, radius: real, c: real, s: real)
    requires c * c + s * s == 1.0
    ensures DistSq(Point(center.x + radius * c, center.y + radius * s), center) == radius * radius
  {
    calc {
      DistSq(Point(center.x + radius * c, center.y + radius * s), center);
      (radius * c) * (radius * c) + (radius * s) * (radius * s);
      radius * radius * (c * c + s * s);
    }
  }

  /** With a cosine and sine that form a unit vector, every cluster centre lies on the circle
      of radius `MainRadius` around the middle of the canvas. */
  lemma ClusterCenterOnCircle(i: nat, n: nat, cos: real -> real, sin: real -> real)
    requires cos(AngleStep(n) * i as real) * cos(AngleStep(n) * i as real)
           + sin(AngleStep(n) * i as real) * sin(AngleStep(n) * i as real) == 1.0
    ensures DistSq(ClusterCenterAt(i, n, cos, sin), Point(CanvasWidth / 2.0, CanvasHeight / 2.0))
         == MainRadius * MainRadius
  {
    var t := AngleStep(n) * i as real;
    OnCircle(Point(CanvasWidth / 2.0, CanvasHeight / 2.0), MainRadius, cos(t), sin(t));
  }

  /** Likewise every card of a cluster of `n` lies on the circle of radius `ClusterRadius(n)`
      around its cluster's centre. */
  lemma CardOnCircle(center: Point, j: nat, n: nat, cos: real -> real, sin: real -> real)
    requires cos(AngleStep(n) * j as real) * cos(AngleStep(n) * j as real)
           + sin(AngleStep(n) * j as real) * sin(AngleStep(n) * j as real) == 1.0
    ensures DistSq(CardAt(center, j, n, cos, sin), center) == ClusterRadius(n) * ClusterRadius(n)
  {
    var t := AngleStep(n) * j as real;
    OnCircle(center, ClusterRadius(n), cos(t), sin(t));
  }

  /** The cards of one cluster written into the positions object, in order: a later card
      with the same id overwrites an earlier one. */
  function ClusterCards(members: seq<Activity>, n: nat, center: Point, cos: real -> real, sin: real -> real): map<string, Point> {
    if members == [] then map[]
    else
      var k := |members| - 1;
      ClusterCards(members[..k], n, center, cos, sin)[members[k].id := CardAt(center, k, n, cos, sin)]
  }

  /** A cluster writes exactly its members' ids. */
  lemma {:induction false} ClusterCardsKeys(members: seq<Activity>, n: nat, center: Point, cos: real -> real, sin: real -> real)
    ensures ClusterCards(members, n, center, cos, sin).Keys == set a | a in members :: a.id
    decreases |members|
  {
    if members != [] {
      var k := |members| - 1;
      ClusterCardsKeys(members[..k], n, center, cos, sin);
      assert forall a :: a in members <==> a in members[..k] || a == members[k] by {
        assert members == members[..k] + [members[k]];
      }
    }
  }

  /** The positions object after the first `k` clusters. */
  function Positions(acts: seq<Activity>, cats: seq<string>, k: nat, cos: real -> real, sin: real -> real): map<string, Point>
    requires k <= |cats|
  {
    if k == 0 then map[]
    else
      var members := Members(acts, cats[k - 1]);
      var center := ClusterCenterAt(k - 1, |cats|, cos, sin);
      Positions(acts, cats, k - 1, cos, sin) + ClusterCards(members, |members|, center, cos, sin)
  }

  /** The first `k` clusters position exactly the activities of the first `k` categories. */
  lemma {:induction false} PositionsKeys(acts: seq<Activity>, cats: seq<string>, k: nat, cos: real -> real, sin: real -> real)
    requires k <= |cats|
    ensures Positions(acts, cats, k, cos, sin).Keys == CategoryIds(acts, cats[..k])
    decreases k
  {
    if k > 0 {
      PositionsKeys(acts, cats, k - 1, cos, sin);
      PositionsStep(acts, cats, k, cos, sin);
      CategoryIdsStep(acts, cats, k);
    }
  }

  /** Cluster `k` adds the ids of its members. */
  lemma PositionsStep(acts: seq<Activity>, cats: seq<string>, k: nat, cos: real -> real, sin: real -> real)
    requires 0 < k <= |cats|
    ensures Positions(acts, cats, k, cos, sin).Keys
      == Positions(acts, cats, k - 1, cos, sin).Keys + set a | a in Members(acts, cats[k - 1]) :: a.id
  {
    var members := Members(acts, cats[k - 1]);
    var center := ClusterCenterAt(k - 1, |cats|, cos, sin);
    ClusterCardsKeys(members, |members|, center, cos, sin);
  }

  /** The ids of the activities whose category is listed in `cats`. */
  function CategoryIds(acts: seq<Activity>, cats: seq<string>): set<string> {
    set a | a in acts && a.category in cats :: a.id
  }

  /** One more category adds the ids of its members. */
  lemma CategoryIdsStep(acts: seq<Activity>, cats: seq<string>, k: nat)
    requires 0 < k <= |cats|
    ensures CategoryIds(acts, cats[..k])
      == CategoryIds(acts, cats[..k - 1]) + set a | a in Members(acts, cats[k - 1]) :: a.id
  {
    var members := Members(acts, cats[k - 1]);
    assert forall c :: c in cats[..k] <==> c in cats[..k - 1] || c == cats[k - 1] by {
      assert cats[..k] == cats[..k - 1] + [cats[k - 1]];
    }
    var before := CategoryIds(acts, cats[..k - 1]);
    var here := set a | a in members :: a.id;
    var after := CategoryIds(acts, cats[..k]);
    forall id | id in after ensures id in before + here {
      var a :| a in acts && a.category in cats[..k] && a.id == id;
      if a.category == cats[k - 1] {
        assert a in members;
      } else {
        assert a.category in cats[..k - 1];
      }
    }
    forall id | id in before + here ensures id in after {
      if id in before {
        var a :| a in acts && a.category in cats[..k - 1] && a.id == id;
        assert a.category in cats[..k];
      } else {
        var a :| a in members && a.id == id;
        assert a.category in cats[..k];
      }
    }
  }

  /** The centres of the first `k` clusters, in category order. */
  function Centers(cats: seq<string>, k: nat, cos: real -> real, sin: real -> real): (r: seq<Center>)
    requires k <= |cats|
    ensures |r| == k
    ensures forall i :: 0 <= i < k ==> r[i].category == cats[i]
  {
    seq(k, i requires 0 <= i < k => Center(cats[i], ClusterCenterAt(i, |cats|, cos, sin)))
  }

  lemma CentersStep(cats: seq<string>, k: nat, cos: real -> real, sin: real -> real)
    requires k < |cats|
    ensures Centers(cats, k + 1, cos, sin) == Centers(cats, k, cos, sin) + [Center(cats[k], ClusterCenterAt(k, |cats|, cos, sin))]
  {
  }

  /** The inner `forEach` of the layout: the cards of one cluster written into `positions`. */
  method PlaceCluster(positions: map<string, Point>, members: seq<Activity>, center: Point,
                      cos: real -> real, sin: real -> real)
    returns (placed: map<string, Point>)
    ensures placed == positions + ClusterCards(members, |members|, center, cos, sin)
  {
    var numActivities := |members|;
    placed := positions;
    var j := 0;
    while j < numActivities
      invariant 0 <= j <= numActivities
      invariant placed == positions + ClusterCards(members[..j], numActivities, center, cos, sin)
    {
      assert ClusterCards(members[..j + 1], numActivities, center, cos, sin)
        == ClusterCards(members[..j], numActivities, center, cos, sin)[members[j].id := CardAt(center, j, numActivities, cos, sin)] by {
        assert members[..j + 1][..j] == members[..j];
      }
      placed := placed[members[j].id := CardAt(center, j, numActivities, cos, sin)];
      j := j + 1;
    }
    assert members[..j] == members;
  }

  /** The layout memo: one centre per category, in category order, and a position for
      every activity of a category other than 'Travel'; nothing for an empty list. */
  method Layout(activities: seq<Activity>, cos: real -> real, sin: real -> real)
    returns (positions: map<string, Point>, centers: seq<Center>)
    ensures activities == [] ==> positions == map[] && centers == []
    ensures activities != [] ==> (var cats := Categories(activities);
      centers == Centers(cats, |cats|, cos, sin) && positions == Positions(activities, cats, |cats|, cos, sin))
  {
    if activities == [] {
      return map[], [];
    }
    var categories := Categories(activities);
    positions := map[];
    centers := [];
    var numCategories := |categories|;
    var i := 0;
    while i < numCategories
      invariant 0 <= i <= numCategories
      invariant centers == Centers(categories, i, cos, sin)
      invariant positions == Positions(activities, categories, i, cos, sin)
    {
      var category := categories[i];
      var center := ClusterCenterAt(i, numCategories, cos, sin);
      CentersStep(categories, i, cos, sin);
      centers := centers + [Center(category, center)];
      var members := Members(activities, category);
      positions := PlaceCluster(positions, members, center, cos, sin);
      i := i + 1;
    }
  }

  /** Every activity outside 'Travel' gets a position and no other id does. */
  lemma PositionedIds(acts: seq<Activity>, cos: real -> real, sin: real -> real)
    ensures var cats := Categories(acts);
      Positions(acts, cats, |cats|, cos, sin).Keys == set a | a in acts && a.category != Travel :: a.id
  {
    var cats := Categories(acts);
    PositionsKeys(acts, cats, |cats|, cos, sin);
    assert cats[..|cats|] == cats;
  }

  /** The cards rendered: the activities outside 'Travel' that have a position. */
  function RenderedCards(acts: seq<Activity>, positions: map<string, Point>): (r: seq<Activity>)
    ensures forall a :: a in r ==> a.category != Travel && a.id in positions
  {
    Filter(acts, (a: Activity) => a.category != Travel && a.id in positions)
  }

  /** With the layout's positions, every activity outside 'Travel' is rendered, in order. */
  lemma AllNonTravelRendered(acts: seq<Activity>, cos: real -> real, sin: real -> real)
    ensures var cats := Categories(acts);
      RenderedCards(acts, Positions(acts, cats, |cats|, cos, sin)) == Filter(acts, (a: Activity) => a.category != Travel)
  {
    var cats := Categories(acts);
    var positions := Positions(acts, cats, |cats|, cos, sin);
    PositionedIds(acts, cos, sin);
    FilterSame(acts, (a: Activity) => a.category != Travel && a.id in positions, (a: Activity) => a.category != Travel);
  }

  /** Two tests that agree on every element filter alike. */
  lemma {:induction false} FilterSame(s: seq<Activity>, p: Activity -> bool, q: Activity -> bool)
    requires forall a :: a in s ==> p(a) == q(a)
    ensures Filter(s, p) == Filter(s, q)
    decreases |s|
  {
    if s != [] {
      FilterSame(s[..|s| - 1], p, q);
    }
  }

  function Sample(id: string, category: string): Activity {
    Activity(id, "", "", category, "", "", "", None, None)
  }

  function ExampleActivities(): seq<Activity> {
    [Sample("a", "Dining"), Sample("b", "Dining"), Sample("c", "Shopping")]
  }

  lemma ExampleCategories()
    ensures Categories(ExampleActivities()) == ["Dining", "Shopping"]
  {
    var all := CategoriesOf(ExampleActivities());
    assert all == ["Dining", "Dining", "Shopping"];
    ExampleDedupe();
    ExampleFilter();
  }

  lemma ExampleDedupe()
    ensures Dedupe(["Dining", "Dining", "Shopping"]) == ["Dining", "Shopping"]
  {
    var s := ["Dining", "Dining", "Shopping"];
    assert s[..2] == ["Dining", "Dining"];
    assert s[..2][..1] == ["Dining"];
    assert ["Dining"][..0] == [];
    assert Dedupe(["Dining"]) == ["Dining"];
    assert Dedupe(["Dining", "Dining"]) == ["Dining"];
  }

  lemma ExampleFilter()
    ensures Filter(["Dining", "Shopping"], NotTravel) == ["Dining", "Shopping"]
  {
    assert ["Dining", "Shopping"][..1] == ["Dining"];
    assert ["Dining"][..0] == [];
    assert Filter(["Dining"], NotTravel) == ["Dining"];
  }

  /** Two Dining activities and a Shopping one make two clusters and three cards. */
  lemma ExampleLayout(cos: real -> real, sin: real -> real)
    ensures var acts := ExampleActivities();
      var cats := Categories(acts);
      |Centers(cats, |cats|, cos, sin)| == 2 && Positions(acts, cats, |cats|, cos, sin).Keys == {"a", "b", "c"}
  {
    ExampleCategories();
    ExamplePositions(ExampleActivities(), ["Dining", "Shopping"], cos, sin);
  }

  lemma ExamplePositions(acts: seq<Activity>, cats: seq<string>, cos: real -> real, sin: real -> real)
    requires acts == ExampleActivities() && cats == ["Dining", "Shopping"]
    ensures Positions(acts, cats, |cats|, cos, sin).Keys == {"a", "b", "c"}
  {
    PositionsKeys(acts, cats, |cats|, cos, sin);
    assert cats[..|cats|] == cats;
    ExampleIds(acts, cats);
  }

  lemma ExampleIds(acts: seq<Activity>, cats: seq<string>)
    requires acts == ExampleActivities() && cats == ["Dining", "Shopping"]
    ensures (set a | a in acts && a.category in cats :: a.id) == {"a", "b", "c"}
  {
    var ids := set a | a in acts && a.category in cats :: a.id;
    assert acts[0].category in cats && acts[1].category in cats && acts[2].category in cats;
    assert acts[0].id == "a" && acts[1].id == "b" && acts[2].id == "c";
    assert acts[0] in acts && acts[1] in acts && acts[2] in acts;
    assert forall a :: a in acts ==> a.id in {"a", "b", "c"};
  }
}
