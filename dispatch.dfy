/** `renderView` of the single-page client: the view type of the committed directive picks
    one of five views, with fallbacks for a missing tag, a missing map key and any other tag. */
module Dispatch {
  import opened Wrappers
  import opened Sse

  /** The view types the agent may choose, and any other text. */
  datatype Tag = MoodBoardTag | CalendarTag | MapTag | BudgetTag | ActivityDetailTag
               | SimpleResponse | Other(name: string)

  function TagName(t: Tag): string {
    match t
    case MoodBoardTag => "mood_board_view"
    case CalendarTag => "calendar_view"
    case MapTag => "map_view"
    case BudgetTag => "budget_view"
    case ActivityDetailTag => "activity_detail_view"
    case SimpleResponse => "simple_response"
    case Other(name) => name
  }

  /** The names of the five tags with a view of their own. */
  const ViewNames: set<string> :=
    {"mood_board_view", "calendar_view", "map_view", "budget_view", "activity_detail_view"}

  const KnownNames: set<string> := ViewNames + {"simple_response"}

  /** A tag is a well-formed value when an `Other` tag does not spell a known name. */
  predicate WellFormed(t: Tag) {
    t.Other? ==> t.name !in KnownNames
  }

  /** The tag a view-type text denotes. */
  function ParseTag(name: string): (t: Tag)
    ensures TagName(t) == name && WellFormed(t)
    ensures t.Other? <==> name !in KnownNames
  {
    if name == "mood_board_view" then MoodBoardTag
    else if name == "calendar_view" then CalendarTag
    else if name == "map_view" then MapTag
    else if name == "budget_view" then BudgetTag
    else if name == "activity_detail_view" then ActivityDetailTag
    else if name == "simple_response" then SimpleResponse
    else Other(name)
  }

  /** Reading a tag's name gives the tag back. */
  lemma TagRoundTrip(t: Tag)
    requires WellFormed(t)
    ensures ParseTag(TagName(t)) == t
  {
  }

  /** What the main area shows. */
  datatype Screen =
    | Spinner
    | Welcome
    | MoodBoard(payload: Option<Payload>)
    | Calendar(payload: Option<Payload>)
    | Map(payload: Option<Payload>, apiKey: string)
    | MapUnavailable
    | Budget(payload: Option<Payload>)
    | ActivityDetail(payload: Option<Payload>)
    | ChatText(text: Option<string>)

  /** The view a tag with a view of its own selects. */
  function TagScreen(t: Tag, payload: Option<Payload>, mapsApiKey: Option<string>, chat: Option<string>): Screen {
    match t
    case MoodBoardTag => MoodBoard(payload)
    case CalendarTag => Calendar(payload)
    case MapTag => if Truthy(mapsApiKey) then Map(payload, mapsApiKey.value) else MapUnavailable
    case BudgetTag => Budget(payload)
    case ActivityDetailTag => ActivityDetail(payload)
    case SimpleResponse => ChatText(chat)
    case Other(_) => ChatText(chat)
  }

  /** `renderView`: a missing or empty view type shows the spinner while loading and the
      welcome text otherwise; each of the five known tags selects its view with the
      directive's payload; map_view without a key shows the unavailable text; any other
      tag shows the directive's chatResponse. */
  function RenderView(view: Event, isLoading: bool, mapsApiKey: Option<string>): (s: Screen)
    ensures s == Spinner <==> isLoading && !Truthy(view.viewType)
    ensures s == Welcome <==> !isLoading && !Truthy(view.viewType)
    ensures s.MoodBoard? <==> view.viewType == Some("mood_board_view")
    ensures s.Calendar? <==> view.viewType == Some("calendar_view")
    ensures s.Budget? <==> view.viewType == Some("budget_view")
    ensures s.ActivityDetail? <==> view.viewType == Some("activity_detail_view")
    ensures s.Map? <==> view.viewType == Some("map_view") && Truthy(mapsApiKey)
    ensures s == MapUnavailable <==> view.viewType == Some("map_view") && !Truthy(mapsApiKey)
    ensures s.ChatText? <==> Truthy(view.viewType) && view.viewType.value !in ViewNames
    ensures s.MoodBoard? || s.Calendar? || s.Budget? || s.ActivityDetail? ==> s.payload == view.payload
    ensures s.Map? ==> s.payload == view.payload && Some(s.apiKey) == mapsApiKey
    ensures s.ChatText? ==> s.text == view.chatResponse
  {
    if isLoading && !Truthy(view.viewType) then Spinner
    else if !Truthy(view.viewType) then Welcome
    else TagScreen(ParseTag(view.viewType.value), view.payload, mapsApiKey, view.chatResponse)
  }

  /** The non-JSON fallback the server sends renders as its (absent) chat text. */
  lemma FallbackRendersText(isLoading: bool, mapsApiKey: Option<string>)
    ensures RenderView(FallbackEvent(), isLoading, mapsApiKey) == ChatText(None)
  {
  }
}
