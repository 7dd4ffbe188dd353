/** The mock-trip records of the page-based front end (`Trip`, `Activity`, `Location`). */
module Trip {

  datatype Category = Dining | Sightseeing | Activity | Shopping

  datatype BudgetTier = Budget | MidRange | Luxury

  datatype Popularity = Popular | Niche

  datatype Coordinates = Coordinates(lat: real, lng: real)

  datatype Location = Location(name: string, coordinates: Coordinates)

  datatype Activity = Activity(
    id: string,
    day: int,
    time: string,
    title: string,
    description: string,
    category: Category,
    location: Location,
    budget: BudgetTier,
    image: string,
    popularity: Popularity)

  datatype Duration = Duration(start: string, end: string, days: int)

  datatype Trip = Trip(
    title: string,
    destination: string,
    duration: Duration,
    itinerary: seq<Activity>)

  /** The budget tier's label as the types spell it. */
  function BudgetName(b: BudgetTier): string {
    match b
    case Budget => "Budget"
    case MidRange => "Mid-range"
    case Luxury => "Luxury"
  }

  /** The category's label as the types spell it. */
  function CategoryName(c: Category): string {
    match c
    case Dining => "Dining"
    case Sightseeing => "Sightseeing"
    case Activity => "Activity"
    case Shopping => "Shopping"
  }
}
