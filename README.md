# Trip planner core, modelled in Dafny

GIS-Analytics is a travel planner in two front ends and one backend:

- **Chat client.** A single-page React client (`frontend/`). The user types a question. The FastAPI backend (`backend/app.py`) runs an agent and streams its answer back as server-sent-event frames. The client decodes the frames, remembers the session id and shows the view the agent chose. The views are a mood board, a calendar, a map, a budget dashboard, activity details or plain text.
- **Page-based client.** A Next.js client (`firebase_frontent/`) renders one mock trip as:
  - a week calendar;
  - a popularity × budget board;
  - category tabs;
  - a map page with hover/active pins;
  - an "Enhance with AI" dialog;
  - a bottom navigation bar.

The model covers the logic of these pieces once the fetched data is taken as an input:
- the backend's endpoint guards and first-match lookups;
- markdown-fence stripping of the agent reply;
- the frames of a chat stream;
- the client's frame decoder and chat-turn state machine;
- the `renderView` dispatcher;
- the view-model derivers of every view;
- the small UI state machines (stop-list accordion, chat-panel click-versus-drag, map pins, enhancer dialog, nav-bar highlight).

Layout, one module per file:

- `wrappers.dfy` (`Option`, `Result`)
- `strings.dfy` (trim, split, join, numerals, lower case)
- `seqs.dfy` (filter, sum, dedupe, sort, slice)
- `itinerary.dfy` (the backend's itinerary JSON)
- `trip.dfy` (the page-based client's `Trip` and `Activity` types)
- `sse.dfy` (the frame codec)
- `backend.dfy`
- `chat.dfy`
- `dispatch.dfy`
- `chatpanel.dfy`
- `moodboard.dfy`
- `budget.dfy`
- `calendarview.dfy`
- `mapview.dfy`
- `stoplist.dfy`
- `calendarpage.dfy`
- `graphpage.dfy`
- `breakdownpage.dfy`
- `mappage.dfy`
- `navbar.dfy`
- `enhancer.dfy`

The following are parameters of the model:
- JSON parsing and serialisation (`parse`, `loads`, `dumps`);
- the session service;
- the agent run;
- cosine and sine;
- every fetched answer.

Component state that the source updates in place is a `class`:
- the chat controller;
- the chat panel;
- the accordion;
- the mood board, dashboard, calendar and map views;
- the map pins;
- the enhancer dialog.

Loops in the source are `while` loops with invariants:
- the read loop;
- the day and activity lookups;
- the agent-event loop;
- the category reduce;
- the running total;
- the layout's nested `forEach`.

## Model

| member | source | states |
|---|---|---|
| Strings.Trim | frontend/src/App.js:113 | The result has no leading or trailing whitespace and is no longer than the input. It is empty exactly when the input is all whitespace. |
| Strings.TrimPadded | backend/app.py:158 | Trimming removes exactly the whitespace around an already trimmed text. |
| Strings.JoinSplit | frontend/src/App.js:143 | Joining the pieces of a split with the same separator gives the text back. |
| Strings.SplitJoin | frontend/src/App.js:143 | Splitting joined pieces on the separator returns those pieces, provided none contains the separator's first character. |
| Strings.IndexOf | frontend/src/App.js:143 | The position found is the first occurrence of the separator; None means there is no occurrence. |
| Strings.Split | frontend/src/App.js:143 | `split(sep)` always gives at least one piece. What the pieces are is stated by Strings.JoinSplit and Strings.SplitJoin. |
| Strings.Join | firebase_frontent/src/components/ai/ItineraryEnhancer.tsx:37 | `join(sep)`: it is the inverse of Split, by Strings.JoinSplit and Strings.SplitJoin. |
| Strings.ParseNumber | firebase_frontent/src/components/pages/CalendarPage.tsx:51 | `Number(text)` is a number exactly when the trimmed text is all digits, and then it is the digits' decimal value ("" reads as 0). Otherwise it is NaN. |
| Strings.ToLower | firebase_frontent/src/components/pages/BreakdownPage.tsx:101 | Same length, with each character lower-cased in place. |
| Strings.LexLe | firebase_frontent/src/components/pages/CalendarPage.tsx:47 | `localeCompare(b) <= 0` on time texts, read as code-point order. It is a total preorder by CalendarPage.TimeOrderIsPreorder. |
| Seqs.Filter | firebase_frontent/src/components/pages/GraphPage.tsx:33-36 | The result holds exactly the elements that pass the test and is no longer than the input. |
| Seqs.FilterKeepsOrder | firebase_frontent/src/components/pages/GraphPage.tsx:33-36 | Two kept elements come from positions of the input in the same order, so a filter preserves relative order. |
| Seqs.FilterConcat | firebase_frontent/src/components/pages/BreakdownPage.tsx:31-33 | Filtering a concatenation is concatenating the filters, so earlier elements stay first. |
| Seqs.Dedupe | frontend/src/components/MoodBoardView.js:42 | `[...new Set(xs)]` holds each element of the input once and nothing else, in the order of first occurrence. |
| Seqs.FirstIndex | frontend/src/components/MoodBoardView.js:42 | The position of an element's first occurrence. |
| Seqs.FilterDedupeOrder | frontend/src/components/MoodBoardView.js:42 | Filtering a deduplicated list keeps the order of first occurrence in the original list. |
| Seqs.SortBy | frontend/src/components/BudgetDashboardView.js:101-102 | Sorting gives a permutation of the input. |
| Seqs.SortBySorted | frontend/src/components/BudgetDashboardView.js:101-102 | Under a total preorder the result is sorted. |
| Seqs.PrefixDominates | frontend/src/components/BudgetDashboardView.js:101-103 | In a sorted list, every element left out of a prefix is ranked no higher than each element of the prefix. |
| Seqs.Take | frontend/src/components/BudgetDashboardView.js:103 | `slice(0, n)` is the prefix of length min(n, \|s\|). |
| Itinerary.FlattenDays | frontend/src/components/BudgetDashboardView.js:73 | `flatMap(day => day.activities)` succeeds exactly when every day has an activities field. |
| Itinerary.Flatten | frontend/src/components/MapView.js:21 | Flattening succeeds exactly when the document has an itinerary and every day has activities. |
| Itinerary.FlattenDaysMembers | frontend/src/components/MoodBoardView.js:18-19 | An activity is in the flattened list exactly when it is in some day's activities. |
| Itinerary.Defined | frontend/src/components/MapView.js:21 | An array with no `undefined` entries: entry k is activity k. |
| Itinerary.FlatMapActivities | frontend/src/components/MapView.js:21 | `flatMap(day => day.activities)` has no `undefined` entry exactly when every day has activities, and is then the flattened itinerary. |
| Sse.RoundTrip | frontend/src/App.js:142-153 | The frames the server writes (`data: ` + JSON + blank line) decode from one chunk to exactly the objects they carry, in order. This holds when no JSON text contains a newline and each one parses. |
| Sse.RoundTripPerChunk | frontend/src/App.js:139-155 | The same round trip holds when every frame arrives in a chunk of its own. |
| Sse.DecodePiecesConcat | frontend/src/App.js:144-153 | Decoding pieces one after another concatenates their objects; a piece that fails to parse or lacks the prefix contributes nothing. |
| Sse.Frame | backend/app.py:147-178 | The frame the backend writes for one JSON text. It decodes back to that text's object by Sse.RoundTrip. |
| Sse.DecodePiece | frontend/src/App.js:145-147 | A piece yields the parse of what follows `data: `, and nothing without that prefix. It inverts Sse.Frame by Sse.RoundTrip. |
| Sse.DecodePieces | frontend/src/App.js:144-153 | The objects of the pieces, in order. Sse.DecodePiecesConcat states how it splits over pieces. |
| Sse.DecodeChunk | frontend/src/App.js:143-153 | One chunk split on blank lines and decoded. The value on server frames is stated by Sse.RoundTrip. |
| Sse.DecodeChunks | frontend/src/App.js:139-155 | The objects of all chunks, chunk by chunk. The value on one frame per chunk is stated by Sse.RoundTripPerChunk. |
| Chat.LatestSession | frontend/src/App.js:148 | The session after a run of objects is the last truthy `session_id` among them, or the initial one when none has one. |
| Chat.Candidate | frontend/src/App.js:148-149 | The directive candidate is an object of the run without a truthy `session_id`. It is None exactly when every object carries one. |
| Chat.LatestSessionIsLast | frontend/src/App.js:148 | When entry k has a truthy `session_id` and no later one does, the session after the run is entry k's id. |
| Chat.CandidateIsLast | frontend/src/App.js:148-149 | When entry k has no truthy `session_id` and every later one has, the candidate is entry k. |
| Chat.LatestSessionConcat | frontend/src/App.js:139-155 | Reading a later run continues from the session the earlier run left. |
| Chat.CandidateConcat | frontend/src/App.js:139-155 | A later run's candidate overrides an earlier one, so the last directive wins. |
| Chat.ServerStreamOutcome | backend/app.py:147-167 | The session frame followed by a directive frame, in one chunk, leaves the client with that session and that directive. |
| Chat.ErrorFrameWins | backend/app.py:175-178 | The backend's `{error}` frame replaces the candidate directive like any other object. |
| Chat.ChatController.constructor | frontend/src/App.js:28-34 | State at mount: empty input and history, the initial view, not loading, no session, no maps key, phase initial. |
| Chat.ChatController.LoadMapsKey | frontend/src/App.js:51-66 | A successful key fetch stores the key. A failed one leaves it unset. Nothing else changes. |
| Chat.ChatController.ReadChunk | frontend/src/App.js:142-154 | After one chunk, the session is the latest truthy id among the chunk's decoded objects. The candidate is the last other object, or the previous candidate. Only the session field changes. |
| Chat.ChatController.ReadLine | frontend/src/App.js:145-151 | A piece that starts with `data: ` and parses updates the session when its `session_id` is truthy, and otherwise becomes the candidate. A piece that does not parse or lacks the prefix changes neither. Only the session field changes. |
| Chat.PieceStep | frontend/src/App.js:144-152 | After one more piece, the session and the candidate of the decoded prefix change exactly as ReadLine changes them. |
| Chat.ChatController.ReadStream | frontend/src/App.js:139-155 | After all chunks, the session and the candidate are those of the concatenated decoded objects of every chunk. |
| Chat.ChatController.Accept | frontend/src/App.js:116-133 | The page becomes active and loading starts. Exactly one user entry with the trimmed text is appended. The input is cleared. The request carries the session held before the turn. |
| Chat.ChatController.Commit | frontend/src/App.js:157-166 | A thrown error appends one "Sorry, an error occurred." reply and keeps the view. A candidate becomes the view and exactly one assistant entry with its chatResponse is appended. No candidate changes neither. Loading ends false in every case. |
| Chat.ChatController.SendMessage | frontend/src/App.js:112-167 | A message empty after trimming sends nothing and changes nothing. Otherwise one request with the trimmed text is sent, the phase is active, the input is cleared, the session follows the frames, and each end-of-turn outcome (candidate, none, error) sets the history and view as stated. |
| Dispatch.ParseTag | ux_agent/agent.py:72-110 | Each view-type text denotes the tag whose name it is. It is `Other` exactly when it is none of the six known names. |
| Dispatch.TagRoundTrip | ux_agent/agent.py:72-110 | Reading a tag's name gives the tag back. |
| Dispatch.RenderView | frontend/src/App.js:173-189 | Both directions, case by case: a missing or empty view type shows the spinner while loading and the welcome text otherwise; each of the five known tags selects its view with the directive's payload; map_view without a key is the "unavailable" text; any other tag shows the chatResponse. |
| Dispatch.FallbackRendersText | backend/app.py:170 | The backend's non-JSON fallback renders as chat text. Since it has no chatResponse, the text is absent. |
| ChatPanel.Panel.constructor | frontend/src/App.js:37-41 | Initial panel state: not dragging, not minimised, no click pending. |
| ChatPanel.Panel.MouseDown | frontend/src/App.js:74-81 | Dragging starts, a click is pending, and the pointer's offset from the panel is recorded. |
| ChatPanel.Panel.MouseMove | frontend/src/App.js:83-91 | Any move cancels the pending click. While dragging, the panel follows the pointer minus the recorded offset. |
| ChatPanel.Panel.MouseUp | frontend/src/App.js:93-98 | Dragging ends. The panel toggles exactly when a click is still pending. |
| ChatPanel.Click | frontend/src/App.js:74-98 | A press and a release with no move toggle the panel and leave it in place. |
| ChatPanel.Drag | frontend/src/App.js:74-98 | A press, one or more moves and a release leave the minimised state unchanged. They shift the panel by exactly the pointer's displacement. |
| ChatPanel.PanelAsWritten.constructor | frontend/src/App.js:37-41 | Initial panel state with no window listeners attached. |
| ChatPanel.PanelAsWritten.MouseDown | frontend/src/App.js:100-109 | The press attaches window listeners whose handlers capture `isClick` (true) and `isChatMinimized` from the next render. |
| ChatPanel.PanelAsWritten.MouseMove | frontend/src/App.js:83-91 | The attached move handler moves the panel and clears the live `isClick`, but not the captured one. |
| ChatPanel.PanelAsWritten.MouseUp | frontend/src/App.js:93-98 | The attached release handler toggles from the captured values and detaches the listeners. |
| ChatPanel.DragAsWritten | frontend/src/App.js:100-109 | As wired, a drag also toggles the panel. |
| Backend.GetMapsKey | backend/app.py:104-108 | The key is served exactly when it is set and non-empty; otherwise the answer is 500. |
| Backend.GetFullItinerary | backend/app.py:110-114 | The document is served exactly when it loaded; otherwise the answer is 500. |
| Backend.GetDayData | backend/app.py:116-122 | The answer is the first day numbered n, and only when the data is present and truthy. Otherwise it is 404 "Day n not found." because the data is missing or falsy or no day has that number. |
| Backend.GetActivityData | backend/app.py:124-131 | The answer is the first activity with the id, scanning days in order and then each day's activities in order. Otherwise it is 404 "Activity id not found." because the data is missing or falsy or no activity matches. |
| Backend.DropEnds | backend/app.py:160 | Python's `t[7:-3]`: the middle when the cuts do not overlap, "" otherwise. |
| Backend.CleanReply | backend/app.py:158-163 | The cleaned reply is trimmed and never longer than the raw one. |
| Backend.CleanFenced | backend/app.py:158-163 | A reply wrapped in a "```json … ```" fence, with whitespace around the fence and inside it, cleans to the wrapped JSON text. This also holds when the text meets the closing fence directly, provided it does not itself end in a fence. |
| Backend.CleanFencedInner | backend/app.py:158-163 | A fenced reply whose inner text ends in whitespace cleans to the trimmed inner text. |
| Backend.CleanUnfenced | backend/app.py:158-163 | An unfenced reply only loses its surrounding whitespace. |
| Backend.UnfenceJson | backend/app.py:159-160 | Dropping 7 and 3 characters from "```json" + inner + "```" gives inner. |
| Backend.NoFenceAfterSpace | backend/app.py:161 | Leading whitespace does not create a closing fence, so the `endswith("```")` test sees only the text. |
| Backend.ChosenSession | backend/app.py:140-146 | The requested session is used when given and known to the service; otherwise a new session is used. |
| Backend.LastText | backend/app.py:152-154 | The loop keeps the first part's text of the last event that has parts. |
| Backend.FinalText | backend/app.py:152-154 | What the agent-event loop leaves in `final_content_text`. Its value is stated by Backend.LastText. |
| Backend.DirectiveEvent | backend/app.py:165-171 | The parsed cleaned reply, or the fallback payload when it does not parse. It enters the stream through Backend.EventGenerator. |
| Backend.EventGenerator | backend/app.py:136-178 | The frame sequence of one chat stream. A session-service failure yields one error frame. Otherwise the session frame comes first and is followed by an error frame if the agent raised, or by the directive frame if there was text. The directive is the parsed cleaned reply, or the fallback when it does not parse. No text means no frame after the session frame. |
| MoodBoard.SelectActivities | frontend/src/components/MoodBoardView.js:11-30 | Nothing is selected without requested ids, when the fetch fails, or when the document cannot be flattened. Otherwise an activity is selected exactly when it is in the itinerary and its id is requested. |
| MoodBoard.Board.constructor | frontend/src/components/MoodBoardView.js:5-6 | No activities, loading. |
| MoodBoard.Board.Load | frontend/src/components/MoodBoardView.js:8-35 | The selected activities are stored and loading ends. |
| MoodBoard.Categories | frontend/src/components/MoodBoardView.js:42 | The categories are distinct and exclude 'Travel'. A category is listed exactly when some activity has it. Their order is stated by MoodBoard.CategoriesInOrder. |
| MoodBoard.CategoriesInOrder | frontend/src/components/MoodBoardView.js:42-56 | The categories, so the clusters and their centres, come in the order of each category's first activity. |
| MoodBoard.Members | frontend/src/components/MoodBoardView.js:58 | A cluster's members are exactly the activities of its category. |
| MoodBoard.AngleStep | frontend/src/components/MoodBoardView.js:47 | n angle steps make a full turn. A zero count divides by 1. |
| MoodBoard.ClusterRadius | frontend/src/components/MoodBoardView.js:62-65 | The radius is max(250, n·320/2π): never below 250 and never below the required circumference's radius. |
| MoodBoard.ClusterCenterAt | frontend/src/components/MoodBoardView.js:52-54 | The centre of cluster i, with cosine and sine as parameters. |
| MoodBoard.ClusterCenterOnCircle | frontend/src/components/MoodBoardView.js:52-54 | When cosine and sine form a unit vector, every cluster centre lies MainRadius away from the middle of the canvas. |
| MoodBoard.CardAt | frontend/src/components/MoodBoardView.js:68-70 | The position of card j around its cluster's centre. |
| MoodBoard.CardOnCircle | frontend/src/components/MoodBoardView.js:68-70 | When cosine and sine form a unit vector, every card lies ClusterRadius(n) away from its cluster's centre. |
| MoodBoard.ClusterCards | frontend/src/components/MoodBoardView.js:67-72 | One cluster's cards in the positions object. The keys are stated by MoodBoard.ClusterCardsKeys. |
| MoodBoard.ClusterCardsKeys | frontend/src/components/MoodBoardView.js:67-72 | A cluster writes a position for exactly its members' ids. |
| MoodBoard.Positions | frontend/src/components/MoodBoardView.js:51-73 | The positions object after k clusters. The keys are stated by MoodBoard.PositionsKeys. |
| MoodBoard.PositionsKeys | frontend/src/components/MoodBoardView.js:51-73 | After k clusters, the positioned ids are exactly those of the activities in the first k categories. |
| MoodBoard.Centers | frontend/src/components/MoodBoardView.js:51-56 | One centre per category, in category order. |
| MoodBoard.CentersStep | frontend/src/components/MoodBoardView.js:56 | Each cluster pushes its own centre after the earlier ones. |
| MoodBoard.PlaceCluster | frontend/src/components/MoodBoardView.js:67-72 | The inner loop writes the cluster's cards into the positions object. Later writes overwrite earlier keys. |
| MoodBoard.Layout | frontend/src/components/MoodBoardView.js:37-76 | An empty list yields no positions and no centres. Otherwise there is one centre per category, in order, and the accumulated cluster positions. |
| MoodBoard.PositionedIds | frontend/src/components/MoodBoardView.js:58-72 | Every activity outside 'Travel' gets a position, and no other id does. |
| MoodBoard.RenderedCards | frontend/src/components/MoodBoardView.js:104-108 | Only activities outside 'Travel' that have a position are rendered. |
| MoodBoard.AllNonTravelRendered | frontend/src/components/MoodBoardView.js:104-108 | With the layout's positions, every activity outside 'Travel' is rendered, in order. |
| MoodBoard.ExampleLayout | frontend/src/components/MoodBoardView.js:42-72 | Dining, Dining, Shopping give two centres and three positioned cards. |
| MoodBoard.ExampleCategories | frontend/src/components/MoodBoardView.js:42 | Dining, Dining, Shopping give the categories [Dining, Shopping]. |
| Budget.CategoryKey | frontend/src/components/BudgetDashboardView.js:79 | The key is the activity's non-empty cost category, or 'Default'. It is never empty. |
| Budget.AmountOf | frontend/src/components/BudgetDashboardView.js:76 | An activity's `cost.estimatedAmount`, or 0 when missing. |
| Budget.TotalCost | frontend/src/components/BudgetDashboardView.js:76 | The reduce over the amounts. It is additive by Budget.TotalCostConcat. |
| Budget.CategorySum | frontend/src/components/BudgetDashboardView.js:79-86 | The amounts under one key. These sums add up to TotalCost by Budget.CategoriesSumToTotal. |
| Budget.TotalCostConcat | frontend/src/components/BudgetDashboardView.js:76 | The total of concatenated lists is the sum of their totals. |
| Budget.CategoryNames | frontend/src/components/BudgetDashboardView.js:78-87 | Each category key appears once, and a key is listed exactly when some activity has it. |
| Budget.CostsByCategory | frontend/src/components/BudgetDashboardView.js:78-87 | There is one entry per category key, in creation order. Each entry's value and size equal the sum of the amounts under its key. |
| Budget.AddActivity | frontend/src/components/BudgetDashboardView.js:79-86 | One reduce step keeps every entry equal to its category sum over the activities seen so far. |
| Budget.CategorySumAbsent | frontend/src/components/BudgetDashboardView.js:81-82 | A key no activity has sums to zero, so a new entry starts at zero. |
| Budget.CategoriesSumToTotal | frontend/src/components/BudgetDashboardView.js:76-87 | The per-category sums add up to totalCost. |
| Budget.SumValuesOver | frontend/src/components/BudgetDashboardView.js:114 | The entries' values add up to the sum over their keys. |
| Budget.CostsByDay | frontend/src/components/BudgetDashboardView.js:89-92 | One row per itinerary day, in order. Each row is named "Day N" and holds that day's total. |
| Budget.DaysSumToTotal | frontend/src/components/BudgetDashboardView.js:73-92 | The day totals add up to the total over the flattened itinerary. |
| Budget.MaxDailySpend | frontend/src/components/BudgetDashboardView.js:94 | The maximum is at least 0 and at least every day total. It is 0 or one of them. |
| Budget.Radar | frontend/src/components/BudgetDashboardView.js:95-99 | One radar point per day, with the day's name and cost, scaled to 1.1 times the maximum. |
| Budget.TopExpensive | frontend/src/components/BudgetDashboardView.js:101-104 | At most five entries (fewer only when there are fewer activities), in non-increasing amount order. |
| Budget.TopFiveAreLargest | frontend/src/components/BudgetDashboardView.js:101-104 | The five kept are drawn from the activities, and every activity left out costs no more than each one kept. |
| Budget.CumulativeSpend | frontend/src/components/BudgetDashboardView.js:106-110 | Row i keeps day i's name and holds the sum of the first i+1 day totals. |
| Budget.CumulativeEndsAtTotal | frontend/src/components/BudgetDashboardView.js:106-110 | The last running total is the sum of all days. |
| Budget.Summarises | frontend/src/components/BudgetDashboardView.js:73-127 | Every field of the budget data: totalCost, the category entries and their sums, the day rows and their sum, the radar, the top five, the running totals ending at the total, and currency SGD. |
| Budget.ProcessBudget | frontend/src/components/BudgetDashboardView.js:67-127 | No data when the fetch fails, the document has no itinerary, or a day has no activities. Otherwise the data satisfies Budget.Summarises for the itinerary's days and activities. |
| Budget.Render | frontend/src/components/BudgetDashboardView.js:132-138 | Spinner while loading. After loading, no data shows "Could not load budget data." and data shows the dashboard. |
| Budget.Dashboard.constructor | frontend/src/components/BudgetDashboardView.js:63-64 | No data, loading. |
| Budget.Dashboard.Load | frontend/src/components/BudgetDashboardView.js:66-127 | A failure keeps the previous data. A fetched document that flattens stores data satisfying Budget.Summarises, so every field is pinned. Loading ends either way. |
| CalendarView.DaysToFetch | frontend/src/components/CalendarView.js:16-18 | The payload's day numbers when they form a non-empty array, otherwise days 1 to 7. Never empty. |
| CalendarView.DayRequests | frontend/src/components/CalendarView.js:22-24 | One `/api/day/N` request per entry, in the same order. |
| CalendarView.ToEvent | frontend/src/components/CalendarView.js:29-34 | An activity as an event: id, name as title, startTime as start, endTime as end. It is used per activity by CalendarView.DayEvents. |
| CalendarView.DayEvents | frontend/src/components/CalendarView.js:29-34 | A day without activities gives no events. Otherwise each activity maps to {id, name, start, end}, in order. |
| CalendarView.Events | frontend/src/components/CalendarView.js:28-35 | No requested days means no events. |
| CalendarView.EventsMembers | frontend/src/components/CalendarView.js:28-35 | An event is shown exactly when it comes from one requested day's answer. |
| CalendarView.EventsConcat | frontend/src/components/CalendarView.js:28-35 | Events of later requests follow those of earlier ones. |
| CalendarView.MissingDayAddsNothing | frontend/src/components/CalendarView.js:29 | A day answered without activities (the 404 body) adds no events. |
| CalendarView.Calendar.constructor | frontend/src/components/CalendarView.js:9-10 | No events, loading. |
| CalendarView.Calendar.Load | frontend/src/components/CalendarView.js:13-42 | The view issues the requests for the chosen days. Success rebuilds the events from the answers and failure keeps the previous ones. Loading ends either way. |
| MapView.RelevantLocations | frontend/src/components/MapView.js:24-31 | A location is listed exactly when it projects a requested activity that has a location. |
| MapView.ScaledSumIsMean | frontend/src/components/MapView.js:51-54 | Summing coordinate/n is the mean, read with exact arithmetic. |
| MapView.Center | frontend/src/components/MapView.js:51-54 | The centre is the mean latitude and longitude. |
| MapView.FindById | frontend/src/components/MapView.js:57 | The result is the first activity with the id, or None exactly when no activity has it. |
| MapView.Find | frontend/src/components/MapView.js:57 | `find` on an array that may hold `undefined`. It finds the first match, is NotFound exactly when every entry is defined and none matches, and throws exactly when an `undefined` entry comes before any match. |
| MapView.FindDefined | frontend/src/components/MapView.js:57 | On an array with no `undefined` entries, `find` never throws and agrees with MapView.FindById. |
| MapView.LoadedFindDefined | frontend/src/components/MapView.js:21-57 | When every day has activities, the marker lookup on the stored array is MapView.FindById on the flattened itinerary. |
| MapView.Fetched | frontend/src/components/MapView.js:13-21 | The view reached the fetch and the document has an itinerary. |
| MapView.Render | frontend/src/components/MapView.js:43-49 | Spinner while loading. After loading, no locations shows "No locations to display on the map." and locations show markers around their centre. |
| MapView.Map.constructor | frontend/src/components/MapView.js:6-9 | No activities, no locations, loading, nothing selected. |
| MapView.Map.Load | frontend/src/components/MapView.js:12-38 | A missing payload throws before anything is set. No requested ids ends loading without a fetch. Once the itinerary is fetched, the flatMap array is stored: a day without `activities` gives an `undefined` entry. The locations are replaced by the relevant ones only when every day has activities. Otherwise the filter throws and the old locations stay. A failed fetch keeps both. |
| MapView.Map.MarkerClick | frontend/src/components/MapView.js:56-59 | `find` scanning the stored array selects the first activity with the marker's id, or clears the selection when none has it. When it meets an `undefined` entry first, it throws and the selection stays. Nothing else changes. |
| MapView.Map.ClearSelection | frontend/src/components/MapView.js:70 | A map click or info-window close clears the selection only. |
| StopList.Toggled | frontend/src/components/StopList.js:10-11 | Collapses exactly when the id is the expanded one, and expands the id otherwise. |
| StopList.ToggleTwice | frontend/src/components/StopList.js:10-11 | Toggling the same id twice restores a collapsed list or the same id. From another expanded id it ends collapsed. |
| StopList.Accordion.constructor | frontend/src/components/StopList.js:8 | Nothing is expanded. |
| StopList.Accordion.ToggleExpand | frontend/src/components/StopList.js:10-15 | The expanded id toggles. The select callback fires, with the id, exactly when a callback exists and the id differs from the one expanded before. |
| StopList.Accordion.SelectionChanged | frontend/src/components/StopList.js:18-22 | A truthy selection expands it. Otherwise the expanded id stays. |
| StopList.Render | frontend/src/components/StopList.js:24-45 | A missing or empty list shows "No stops found.". Otherwise the header counts the stops and row k is labelled k+1, with "Address not available" for a missing address. A row is expanded or selected exactly for its own id. |
| StopList.AtMostOneExpanded | frontend/src/components/StopList.js:35 | With distinct ids, at most one row is expanded. |
| StopList.StopDetails | frontend/src/components/StopList.js:57-80 | The details show the stop's name. The address, packages, ETA and status fall back to "N/A", "1 Item", "Pending" and "Pending"/"pending" when missing or empty. A present status gives a lower-cased badge class. |
| CalendarPage.TimeValue | firebase_frontent/src/components/pages/CalendarPage.tsx:52 | The hour plus the minute/60. Times 60 it is the minute count, by CalendarPage.InMinutes. |
| CalendarPage.InMinutes | firebase_frontent/src/components/pages/CalendarPage.tsx:52 | The time value times 60 is 60·hour + minute. |
| CalendarPage.FieldsTime | firebase_frontent/src/components/pages/CalendarPage.tsx:51-52 | The time is a number exactly when there are at least two fields and the first two read as numbers. It is then the hour plus the minute/60 (CalendarPage.TimeValue). |
| CalendarPage.ParseTime | firebase_frontent/src/components/pages/CalendarPage.tsx:50-53 | A time is a number exactly when its first two ':' fields read as numbers; otherwise it is NaN. |
| CalendarPage.ParseClock | firebase_frontent/src/components/pages/CalendarPage.tsx:50-53 | "H:M" built from `${n}` numerals parses to TimeValue(H, M), which is H + M/60 hours, that is 60·H + M minutes. |
| CalendarPage.NoMinuteIsNaN | firebase_frontent/src/components/pages/CalendarPage.tsx:51-52 | A time with no minute part is NaN. |
| CalendarPage.SplitClock | firebase_frontent/src/components/pages/CalendarPage.tsx:51 | "HH:MM" splits into its two numerals. |
| CalendarPage.ParseNumeral | firebase_frontent/src/components/pages/CalendarPage.tsx:51 | `Number` reads a numeral back as its value. |
| CalendarPage.DigitsNumber | firebase_frontent/src/components/pages/CalendarPage.tsx:51 | `Number` reads any digit string, padded ones included, as its decimal value. |
| CalendarPage.ParseDigits | firebase_frontent/src/components/pages/CalendarPage.tsx:50-53 | "h:m", for any digit strings h and m (so "09:30" too), parses to TimeValue of their values, that is value(h) + value(m)/60 hours. |
| CalendarPage.TwoDigits | firebase_frontent/src/components/pages/CalendarPage.tsx:133 | Two digits whose value is the given number below 100. |
| CalendarPage.PaddedHour | firebase_frontent/src/components/pages/CalendarPage.tsx:133 | "hh:00" parses to the hour hh. |
| CalendarPage.StartRow | firebase_frontent/src/components/pages/CalendarPage.tsx:59 | 09:00 starts on row 3. |
| CalendarPage.HalfHourIsOneRow | firebase_frontent/src/components/pages/CalendarPage.tsx:59 | Half an hour later is exactly one row further down. |
| CalendarPage.Placement | firebase_frontent/src/components/pages/CalendarPage.tsx:55-66 | An activity whose time is NaN gets no card, matching the "NaN" row check at line 150. Otherwise its column is day + 1, it starts on its time's row and it spans 4 rows. |
| CalendarPage.TimeOrderIsPreorder | firebase_frontent/src/components/pages/CalendarPage.tsx:47 | Comparing time texts is a total preorder. |
| CalendarPage.ActivitiesByDay | firebase_frontent/src/components/pages/CalendarPage.tsx:41-48 | The result is a permutation of the activities with day i+1, holds exactly those, and is sorted by time text. |
| CalendarPage.Hours | firebase_frontent/src/components/pages/CalendarPage.tsx:32 | The axis lists the hours 9 to 21. |
| CalendarPage.HourRowMatchesStart | firebase_frontent/src/components/pages/CalendarPage.tsx:133 | For the padded text "hh:00" of an hour, the time parses to that hour, and the hour's label row is the row on which an activity at that time starts. |
| CalendarPage.Label | firebase_frontent/src/components/pages/CalendarPage.tsx:134 | The label is between 1 and 12 and congruent to the hour mod 12. On the axis, AM holds exactly before noon. |
| GraphPage.Bucket | firebase_frontent/src/components/pages/GraphPage.tsx:32-37 | Each quadrant holds exactly the itinerary's activities with its popularity and its budget-or-upscale tier. |
| GraphPage.ExactlyOneQuadrant | firebase_frontent/src/components/pages/GraphPage.tsx:33-36 | Every activity satisfies exactly one quadrant test. Mid-range and Luxury are upscale. |
| GraphPage.QuadrantsPartition | firebase_frontent/src/components/pages/GraphPage.tsx:32-37 | The four quadrants together, counted with repetition, are exactly the itinerary. |
| GraphPage.FiltersPartition | firebase_frontent/src/components/pages/GraphPage.tsx:33-36 | The four filters split the itinerary's multiset. |
| GraphPage.Slot | firebase_frontent/src/components/pages/GraphPage.tsx:83 | A slot holds the k-th member when it exists and is empty otherwise. |
| GraphPage.Slots | firebase_frontent/src/components/pages/GraphPage.tsx:87-91 | n slots, slot k being the k-th member or empty. |
| GraphPage.Shown | firebase_frontent/src/components/pages/GraphPage.tsx:79-103 | 1, 3, 2 and 2 slots for popular-budget, niche-budget, popular-upscale and niche-upscale. Each slot is the quadrant's member at that index or empty, and overflow is not shown. |
| GraphPage.Caption | firebase_frontent/src/components/pages/GraphPage.tsx:24 | The caption of a description: its first five words and "...". Its meaning is stated by GraphPage.ShortCaption and GraphPage.CaptionIsPrefix. |
| GraphPage.ShownInOrder | firebase_frontent/src/components/pages/GraphPage.tsx:87-91 | A filled slot implies every earlier slot is filled, and shown cards keep the quadrant's order. |
| GraphPage.ShortCaption | firebase_frontent/src/components/pages/GraphPage.tsx:24 | A description of at most five words is shown whole, followed by "...". |
| GraphPage.CaptionIsPrefix | firebase_frontent/src/components/pages/GraphPage.tsx:24 | The caption ends in "..." and its text before that is a prefix of the description. |
| GraphPage.JoinTakeSplitPrefix | firebase_frontent/src/components/pages/GraphPage.tsx:24 | Joining the first n words of a split gives a prefix of the text. |
| BreakdownPage.TabsCoverCategories | firebase_frontent/src/components/pages/BreakdownPage.tsx:29 | The four tabs are distinct and cover every category. |
| BreakdownPage.ByCategory | firebase_frontent/src/components/pages/BreakdownPage.tsx:31-33 | A tab holds exactly the itinerary's activities of its category. |
| BreakdownPage.TabsPartition | firebase_frontent/src/components/pages/BreakdownPage.tsx:29-33 | Every activity appears under exactly its own category's tab, as often as in the itinerary. |
| BreakdownPage.Tab | firebase_frontent/src/components/pages/BreakdownPage.tsx:76-103 | A tab is empty exactly when no activity has its category, and then shows its empty-state line. Otherwise it shows the category's activities. |
| BreakdownPage.EmptyMessageLowerCase | firebase_frontent/src/components/pages/BreakdownPage.tsx:101 | The empty-state line names the category in lower case. |
| BreakdownPage.LowerCaseName | firebase_frontent/src/components/pages/BreakdownPage.tsx:101 | `toLowerCase` of each category name is its lower-case spelling. |
| BreakdownPage.Badge | firebase_frontent/src/components/pages/BreakdownPage.tsx:92 | Luxury maps to destructive, Mid-range to secondary, and Budget to default, in both directions. |
| BreakdownPage.Subtitle | firebase_frontent/src/components/pages/BreakdownPage.tsx:88 | The subtitle starts with "Day " and ends with " at " and the time. |
| MapPage.MapCenter | firebase_frontent/src/components/pages/MapPage.tsx:50-60 | An empty itinerary centres on the default centre (41.0082, 28.9784). |
| MapPage.CenterInBox | firebase_frontent/src/components/pages/MapPage.tsx:54-58 | The centre of a non-empty itinerary lies in any box holding all its coordinates. |
| MapPage.MeanBounds | firebase_frontent/src/components/pages/MapPage.tsx:57-58 | The mean of values between two bounds lies between them. |
| MapPage.Markers | firebase_frontent/src/components/pages/MapPage.tsx:111-123 | One marker per activity, at its coordinates, in the primary colour exactly when it is the hovered pin. |
| MapPage.Entries | firebase_frontent/src/components/pages/MapPage.tsx:150-157 | One list entry per activity, highlighted exactly when it is the hovered pin or the active marker. |
| MapPage.Render | firebase_frontent/src/components/pages/MapPage.tsx:67-161 | A load error shows only the error line. Otherwise the page shows the markers once loaded, the centre and the entries. |
| MapPage.PrimaryMarkerHighlightsEntry | firebase_frontent/src/components/pages/MapPage.tsx:123 | A marker in the primary colour always has its list entry highlighted. |
| MapPage.Pins.constructor | firebase_frontent/src/components/pages/MapPage.tsx:40-41 | No pin is hovered or active. |
| MapPage.Pins.Click | firebase_frontent/src/components/pages/MapPage.tsx:62-65 | A marker or list click sets both the active marker and the hovered pin to the id. |
| MapPage.Pins.Hover | firebase_frontent/src/components/pages/MapPage.tsx:119 | Hovering sets only the hovered pin. |
| MapPage.Pins.Leave | firebase_frontent/src/components/pages/MapPage.tsx:120 | Mouse-out or mouse-leave clears the hovered pin and never the active marker. |
| MapPage.ClickThenLeave | firebase_frontent/src/components/pages/MapPage.tsx:157-160 | After a click and a leave, the entry stays highlighted while its marker returns to the accent colour. |
| NavBar.Highlights | firebase_frontent/src/components/BottomNavBar.tsx:37 | Item i is highlighted exactly when the bar is mounted and the path is its link, or its link is /canvas and the path is /. Before mount nothing is highlighted. |
| NavBar.AtMostOneHighlighted | firebase_frontent/src/components/BottomNavBar.tsx:10-16 | Since the links are distinct, no path highlights two items. |
| NavBar.RootHighlightsCanvas | firebase_frontent/src/components/BottomNavBar.tsx:37 | After mount, / highlights the canvas item and nothing else. |
| Enhancer.Lines | firebase_frontent/src/components/ai/ItineraryEnhancer.tsx:35-36 | One "Day d: title - description" line per activity, in order. |
| Enhancer.ItineraryString | firebase_frontent/src/components/ai/ItineraryEnhancer.tsx:35-37 | The lines joined by newlines. It splits back into the lines by Enhancer.OneLinePerActivity. |
| Enhancer.OneLinePerActivity | firebase_frontent/src/components/ai/ItineraryEnhancer.tsx:35-37 | When no title or description holds a newline, the text splits into exactly the activities' lines: one per activity, in order, with no trailing newline. |
| Enhancer.View | firebase_frontent/src/components/ai/ItineraryEnhancer.tsx:79-135 | The preferences field and the enhance button appear exactly while there are no suggestions. The spinner shows while generating, and the button then reads "Generating..." and is disabled. |
| Enhancer.Dialog.constructor | firebase_frontent/src/components/ai/ItineraryEnhancer.tsx:25-28 | Closed, not generating, no preferences, no suggestions. |
| Enhancer.Dialog.EditPreferences | firebase_frontent/src/components/ai/ItineraryEnhancer.tsx:86-88 | Typing changes the preferences unless the disabled field is generating. |
| Enhancer.Dialog.StartEnhance | firebase_frontent/src/components/ai/ItineraryEnhancer.tsx:32-43 | The spinner starts, suggestions are cleared, and the request carries the itinerary text and the preferences. |
| Enhancer.Dialog.FinishEnhance | firebase_frontent/src/components/ai/ItineraryEnhancer.tsx:44-54 | Success stores the result. Failure leaves the suggestions as they were (cleared when the request started) and raises the error toast. The spinner stops on both paths. |
| Enhancer.Dialog.Enhance | firebase_frontent/src/components/ai/ItineraryEnhancer.tsx:31-55 | After `handleEnhance`, the suggestions are the flow's result (null on failure), one toast is raised exactly on failure, and the spinner has stopped. |
| Enhancer.Dialog.OpenChange | firebase_frontent/src/components/ai/ItineraryEnhancer.tsx:57-63 | Closing clears suggestions and preferences. Opening changes only isOpen. |
| Enhancer.CloseAndReopen | firebase_frontent/src/components/ai/ItineraryEnhancer.tsx:57-63 | Closing and reopening shows an empty preferences field and the enhance button again. |

## Left out

- Strings.Trim: only the six ASCII whitespace characters (space, tab, newline, vertical tab, form feed, carriage return) are removed. Python's `strip` also removes \x1c-\x1f and the Unicode spaces, and JavaScript's `trim` removes the Unicode spaces and line terminators.
- Strings.ToLower: only A-Z are mapped. JavaScript's `toLowerCase` maps every Unicode letter.
- `Number(text)` is modelled on the texts the calendar meets: surrounding whitespace, "" (read as 0) and decimal numerals. Signs, decimals, exponents and hexadecimal are read as NaN.
- `localeCompare` on time texts is modelled as code-point lexicographic order; locale collation is not modelled.
- Seqs.SortBy: JavaScript's `sort` is stable. The model's sort is a permutation and sorted, but its handling of ties is not stated.
- Floating point is read as exact reals: the mood-board geometry, the map centres and the radar's 1.1 scale. `toFixed` and other number formatting are not modelled.
- Cosine, sine and π's digits are parameters or a constant, not a trigonometry model.
- JSON parsing and serialisation are abstract functions, so the model says nothing about JSON syntax itself.
- Object key order: the budget entries come out in creation order. This matches `Object.values` unless a category key looks like an integer, which JavaScript would list first.
- The decoder works per chunk: a frame split across two network chunks is not rejoined. This follows the client code rather than a general event-stream parser. TextDecoder's streaming is not modelled.
- Fetches, the response reader, `Promise.all`, the agent runner and the session service are inputs to the model.
- React scheduling is not modelled: effect timing, overlapping fetches and asynchronous interleaving. A turn and a view load are each one atomic method.
- Chat.ChatController.SendMessage: an error thrown mid-stream is modelled as coming after all the chunks given. A throw before the first read is the `failed` case with no chunks.
- MapPage.MapCenter: its contract states the empty case; the non-empty case is stated through CenterInBox and MeanBounds rather than as an equation.
- StopList.ToggleTwice: toggling twice from a different expanded id ends collapsed, not restored, as the code does.
- MoodBoard.SelectActivities: the contract states membership. The itinerary order comes from the `Seqs.Filter` it applies and is proved in general by Seqs.FilterKeepsOrder, not restated on this function. For the categories, MoodBoard.CategoriesInOrder states the order.
- MapView.Map.Load: an `undefined` flatMap entry is modelled as `None`. After one, the filter's throw is modelled only as "the locations stay". The error it logs is not modelled.
- MapView.RelevantLocations: the contract states membership. The order is that of the activities, by its definition from the back, not restated as a lemma.
- The Google Maps script loader is left out; its `isLoaded` and `loadError` are inputs to MapPage.Render.
- The toast system's rendering is left out. The dialog only records the toasts it raises.
- The following are not part of this model:
  - JSX markup, CSS classes and the chart, calendar and map widgets;
  - the activity-detail view's date formatting;
  - the hard-coded summary page;
  - the one-line app route wrappers;
  - the prompt-only agent definition;
  - the two AI SDK flow wrappers;
  - the backend's static file serving and app start-up.

## Findings

| source | as written | input that shows it | evidently intended | confidence | as-written member | corrected member |
|---|---|---|---|---|---|---|
| frontend/src/App.js:100-109 | The window listeners are attached by an effect keyed only on `[isDragging, dragStart]`. The `mouseup` handler therefore keeps the `isClick` value (true) captured after the press, even though `handleMouseMove` cleared the live `isClick`. | A mousedown on the chat panel header, one mousemove, then a mouseup: the panel moves and also toggles minimised. | A drag moves the panel without toggling it; only a press and release with no move toggles (App.js:83-98). | not executed | ChatPanel.DragAsWritten | ChatPanel.Drag |
