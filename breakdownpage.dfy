/** The category tabs of the page-based front end: one tab per category, each listing
    the itinerary's activities of that category. */
module BreakdownPage {
  import opened Strings
  import opened Seqs
  import opened Trip

  /** The tabs, in the order they are shown. */
  const Tabs: seq<Category> := [Sightseeing, Dining, Category.Activity, Shopping]

  /** Every category has exactly one tab. */
  lemma TabsCoverCategories(c: Category)
    ensures c in Tabs
    ensures |Tabs| == 4 && forall i, j :: 0 <= i < j < |Tabs| ==> Tabs[i] != Tabs[j]
  {
  }

  predicate InCategory(c: Category, a: Activity) { a.category == c }

  /** `getActivitiesByCategory`: the itinerary's activities of one category, in order. */
  function ByCategory(itinerary: seq<Activity>, c: Category): (r: seq<Activity>)
    ensures forall a :: a in r <==> a in itinerary && a.category == c
    ensures |r| <= |itinerary|
  {
    Filter(itinerary, a => InCategory(c, a))
  }

  /** All four tabs' cards together, counted with repetition. */
  function AllTabs(itinerary: seq<Activity>): multiset<Activity> {
    multiset(ByCategory(itinerary, Sightseeing)) + multiset(ByCategory(itinerary, Dining))
      + multiset(ByCategory(itinerary, Category.Activity)) + multiset(ByCategory(itinerary, Shopping))
  }

  /** The tabs partition the itinerary: each activity appears under its own category's
      tab as often as in the itinerary, and under no other. */
  lemma {:induction false} TabsPartition(itinerary: seq<Activity>)
    ensures AllTabs(itinerary) == multiset(itinerary)
    decreases |itinerary|
  {
    if itinerary != [] {
      TabsPartition(itinerary[..|itinerary| - 1]);
      TabsStep(itinerary);
      MultisetLast(itinerary);
    }
  }

  /** The last activity joins exactly one tab. */
  lemma TabsStep(itinerary: seq<Activity>)
    requires itinerary != []
    ensures AllTabs(itinerary) == AllTabs(itinerary[..|itinerary| - 1]) + multiset{itinerary[|itinerary| - 1]}
  {
    var init := itinerary[..|itinerary| - 1];
    var sights := LastJoins(itinerary, Sightseeing);
    var meals := LastJoins(itinerary, Dining);
    var outings := LastJoins(itinerary, Category.Activity);
    var shops := LastJoins(itinerary, Shopping);
    var a := itinerary[|itinerary| - 1];
    assert sights + meals + outings + shops == multiset{a} by {
      match a.category
      case Sightseeing =>
      case Dining =>
      case Activity =>
      case Shopping =>
    }
    Regroup(multiset(ByCategory(init, Sightseeing)), multiset(ByCategory(init, Dining)),
            multiset(ByCategory(init, Category.Activity)), multiset(ByCategory(init, Shopping)),
            sights, meals, outings, shops);
  }

  /** What the last activity adds to a tab: itself under its own category, nothing elsewhere. */
  function LastJoins(itinerary: seq<Activity>, c: Category): (added: multiset<Activity>)
    requires itinerary != []
    ensures multiset(ByCategory(itinerary, c)) == multiset(ByCategory(itinerary[..|itinerary| - 1], c)) + added
    ensures added == if itinerary[|itinerary| - 1].category == c then multiset{itinerary[|itinerary| - 1]} else multiset{}
  {
    var a := itinerary[|itinerary| - 1];
    if a.category == c then multiset{a} else multiset{}
  }

  /** What a tab shows: its cards, or the empty-state line. */
  datatype TabContent = Cards(cards: seq<Activity>) | Empty(message: string)

  function EmptyMessage(c: Category): string {
    "No " + ToLower(CategoryName(c)) + " activities planned."
  }

  function Tab(itinerary: seq<Activity>, c: Category): (t: TabContent)
    ensures t.Empty? <==> (forall a :: a in itinerary ==> a.category != c)
    ensures t.Cards? ==> t.cards == ByCategory(itinerary, c)
    ensures t.Empty? ==> t.message == EmptyMessage(c)
  {
    var cards := ByCategory(itinerary, c);
    assert |cards| > 0 ==> cards[0] in itinerary && cards[0].category == c by {
      if |cards| > 0 { assert cards[0] in cards; }
    }
    if |cards| == 0 then Empty(EmptyMessage(c)) else Cards(cards)
  }

  /** The category's name in lower case, as `toLowerCase` spells it. */
  function LowerName(c: Category): string {
    match c
    case Dining => "dining"
    case Sightseeing => "sightseeing"
    case Activity => "activity"
    case Shopping => "shopping"
  }

  /** The empty-state line names the category in lower case. */
  lemma EmptyMessageLowerCase(c: Category)
    ensures EmptyMessage(c) == "No " + LowerName(c) + " activities planned."
  {
    LowerCaseName(c);
  }

  lemma LowerCaseName(c: Category)
    ensures ToLower(CategoryName(c)) == LowerName(c)
  {
    match c
    case Dining => LowerCapitalised('D', "ining");
    case Sightseeing => LowerCapitalised('S', "ightseeing");
    case Activity => LowerCapitalised('A', "ctivity");
    case Shopping => LowerCapitalised('S', "hopping");
  }

  /** Lower-casing a capitalised word lower-cases only its first letter. */
  lemma LowerCapitalised(first: char, rest: string)
    requires 'A' <= first <= 'Z'
    requires forall i :: 0 <= i < |rest| ==> 'a' <= rest[i] <= 'z'
    ensures ToLower([first] + rest) == [(first as int + 32) as char] + rest
  {
    var s := [first] + rest;
    var r := ToLower(s);
    forall i | 0 <= i < |s| ensures r[i] == ([(first as int + 32) as char] + rest)[i] {
      if i > 0 {
        assert s[i] == rest[i - 1];
      }
    }
  }

  datatype Variant = Destructive | Secondary | Default

  /** The badge variant of a card, by budget tier. */
  function Badge(b: BudgetTier): (v: Variant)
    ensures v == Destructive <==> b == Luxury
    ensures v == Secondary <==> b == MidRange
    ensures v == Default <==> b == BudgetTier.Budget
  {
    match b
    case Luxury => Destructive
    case MidRange => Secondary
    case Budget => Default
  }

  /** The card's sub-title, `Day {day} at {time}`. */
  function Subtitle(a: Activity): (r: string)
    ensures StartsWith(r, "Day ") && EndsWith(r, " at " + a.time)
  {
    "Day " + IntToString(a.day) + " at " + a.time
  }
}
