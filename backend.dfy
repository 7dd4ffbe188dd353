/** The FastAPI server: its data endpoints and the frame sequence of `/api/chat`. */
module Backend {
  import opened Wrappers
  import opened Strings
  import opened Itinerary
  import opened Sse

  /** GET /api/maps-key: 500 unless the key is set to a non-empty text. */
  function GetMapsKey(key: Option<string>): (r: Result<string>)
    ensures r.Ok? <==> Truthy(key)
    ensures r.Ok? ==> r.value == key.value
    ensures r.Err? ==> r.status == 500
  {
    if !Truthy(key) then Err(500, "Google Maps API Key not configured on the server.")
    else Ok(key.value)
  }

  /** GET /api/itinerary: 500 when the data file failed to load, else the document. */
  function GetFullItinerary(data: Option<Document>): (r: Result<Document>)
    ensures r.Err? <==> data.None?
    ensures r.Ok? ==> r.value == data.value
    ensures r.Err? ==> r.status == 500
  {
    if data.None? then Err(500, "Itinerary data is not available.") else Ok(data.value)
  }

  /** Day `i` is the first whose "day" equals `n`. */
  predicate IsFirstDay(days: seq<Day>, n: int, i: int) {
    0 <= i < |days| && days[i].day == n && forall k :: 0 <= k < i ==> days[k].day != n
  }

  function NotFound(what: string): Result<Day> {
    Err(404, what)
  }

  /** GET /api/day/{n}: the first day numbered `n`; 404 when there is none or the data is
      missing or falsy. */
  method GetDayData(data: Option<Document>, dayNumber: int) returns (r: Result<Day>)
    ensures r.Ok? ==> data.Some? && data.value.Truthy()
    ensures r.Ok? ==> exists i :: IsFirstDay(DaysOf(data.value), dayNumber, i) && DaysOf(data.value)[i] == r.value
    ensures r.Err? ==> r == Err(404, "Day " + IntToString(dayNumber) + " not found.")
    ensures r.Err? ==> (data.None? || !data.value.Truthy()
                        || forall k :: 0 <= k < |DaysOf(data.value)| ==> DaysOf(data.value)[k].day != dayNumber)
  {
    if data.Some? && data.value.Truthy() {
      var days := DaysOf(data.value);
      var i := 0;
      while i < |days|
        invariant 0 <= i <= |days|
        invariant forall k :: 0 <= k < i ==> days[k].day != dayNumber
      {
        if days[i].day == dayNumber {
          assert IsFirstDay(days, dayNumber, i);
          return Ok(days[i]);
        }
        i := i + 1;
      }
    }
    r := Err(404, "Day " + IntToString(dayNumber) + " not found.");
  }

  /** Activity `j` of day `i` has the id. */
  predicate MatchAt(days: seq<Day>, id: string, i: int, j: int) {
    0 <= i < |days| && 0 <= j < |ActivitiesOf(days[i])| && ActivitiesOf(days[i])[j].id == id
  }

  /** No activity before position (i, j), in day order then activity order, has the id. */
  predicate NoMatchBefore(days: seq<Day>, id: string, i: int, j: int) {
    && (forall i', j' :: 0 <= i' < i && i' < |days| && 0 <= j' < |ActivitiesOf(days[i'])|
          ==> ActivitiesOf(days[i'])[j'].id != id)
    && (0 <= i < |days| ==> forall j' :: 0 <= j' < j && j' < |ActivitiesOf(days[i])| ==> ActivitiesOf(days[i])[j'].id != id)
  }

  /** GET /api/activity/{id}: scans days in order and each day's activities in order and
      returns the first activity with the id; 404 when none has it. */
  method GetActivityData(data: Option<Document>, activityId: string) returns (r: Result<Activity>)
    ensures r.Ok? ==> data.Some? && data.value.Truthy()
    ensures r.Ok? ==> exists i, j :: (MatchAt(DaysOf(data.value), activityId, i, j)
                                      && NoMatchBefore(DaysOf(data.value), activityId, i, j)
                                      && ActivitiesOf(DaysOf(data.value)[i])[j] == r.value)
    ensures r.Err? ==> r == Err(404, "Activity " + activityId + " not found.")
    ensures r.Err? ==> (data.None? || !data.value.Truthy()
                        || forall i, j :: !MatchAt(DaysOf(data.value), activityId, i, j))
  {
    if data.Some? && data.value.Truthy() {
      var days := DaysOf(data.value);
      var i := 0;
      while i < |days|
        invariant 0 <= i <= |days|
        invariant NoMatchBefore(days, activityId, i, 0)
      {
        var acts := ActivitiesOf(days[i]);
        var j := 0;
        while j < |acts|
          invariant 0 <= j <= |acts|
          invariant NoMatchBefore(days, activityId, i, j)
        {
          if acts[j].id == activityId {
            assert MatchAt(days, activityId, i, j);
            return Ok(acts[j]);
          }
          j := j + 1;
        }
        i := i + 1;
      }
      assert forall i, j :: !MatchAt(days, activityId, i, j);
    }
    r := Err(404, "Activity " + activityId + " not found.");
  }

  /** Python slicing `t[start:-end]`: empty when the two cuts overlap. */
  function DropEnds(t: string, start: nat, end: nat): (r: string)
    ensures start + end <= |t| ==> r == t[start..|t| - end]
    ensures start + end > |t| ==> r == ""
  {
    if start + end <= |t| then t[start..|t| - end] else ""
  }

  const JsonFence := "```json"
  const Fence := "```"

  /** Markdown-fence stripping of the agent's reply: trim; drop the first 7 and the last 3
      characters when it starts with "```json"; drop a trailing "```"; trim again. */
  function CleanReply(text: string): (r: string)
    ensures IsTrimmed(r)
    ensures |r| <= |text|
  {
    var t := Trim(text);
    var u := if StartsWith(t, JsonFence) then DropEnds(t, 7, 3) else t;
    var v := if EndsWith(u, Fence) then u[..|u| - 3] else u;
    Trim(v)
  }

  /** A reply wrapped in a json fence, with any whitespace around the fence and inside it,
      cleans to the wrapped text; with no whitespace before the closing fence (as in
      "```json{...}```") this holds when the text itself does not end in a fence. */
  lemma CleanFenced(outerFront: string, front: string, body: string, back: string, outerBack: string)
    requires AllSpace(outerFront) && AllSpace(front) && AllSpace(back) && AllSpace(outerBack)
    requires IsTrimmed(body) && (back != [] || !EndsWith(body, Fence))
    ensures CleanReply(outerFront + (JsonFence + (front + body + back) + Fence) + outerBack) == body
  {
    var inner := front + body + back;
    if back != [] {
      assert inner[|inner| - 1] == back[|back| - 1];
      CleanFencedInner(outerFront, inner, outerBack);
    } else {
      assert inner == front + body;
      TrimFenced(outerFront, inner, outerBack);
      UnfenceJson(inner);
      NoFenceAfterSpace(front, body);
      CleanJsonFenced(outerFront + (JsonFence + inner + Fence) + outerBack, JsonFence + inner + Fence, inner);
    }
    TrimPadded(front, body, back);
  }

  /** Whitespace followed by a text that does not end in a fence does not end in one. */
  lemma NoFenceAfterSpace(front: string, body: string)
    requires AllSpace(front) && !EndsWith(body, Fence)
    ensures !EndsWith(front + body, Fence)
  {
    var t := front + body;
    if |Fence| <= |t| {
      if |body| >= 3 {
        assert t[|t| - 3..] == body[|body| - 3..];
      } else {
        assert t[|t| - 3..][0] == t[|t| - 3] == front[|t| - 3];
      }
    }
  }

  /** A json-fenced reply whose inside ends in whitespace cleans to its inside, trimmed. */
  lemma CleanFencedInner(outerFront: string, inner: string, outerBack: string)
    requires AllSpace(outerFront) && AllSpace(outerBack)
    requires inner != [] && IsSpace(inner[|inner| - 1])
    ensures CleanReply(outerFront + (JsonFence + inner + Fence) + outerBack) == Trim(inner)
  {
    TrimFenced(outerFront, inner, outerBack);
    UnfenceJson(inner);
    NoTrailingFence(inner);
    CleanJsonFenced(outerFront + (JsonFence + inner + Fence) + outerBack, JsonFence + inner + Fence, inner);
  }

  /** The outer trim of a fenced reply keeps both fences. */
  lemma TrimFenced(outerFront: string, inner: string, outerBack: string)
    requires AllSpace(outerFront) && AllSpace(outerBack)
    ensures Trim(outerFront + (JsonFence + inner + Fence) + outerBack) == JsonFence + inner + Fence
  {
    var fenced := JsonFence + inner + Fence;
    assert fenced[0] == '`' && fenced[|fenced| - 1] == '`';
    TrimPadded(outerFront, fenced, outerBack);
  }

  /** The slice `[7:-3]` removes exactly the two fences. */
  lemma UnfenceJson(inner: string)
    ensures StartsWith(JsonFence + inner + Fence, JsonFence)
    ensures DropEnds(JsonFence + inner + Fence, 7, 3) == inner
  {
    var fenced := JsonFence + inner + Fence;
    assert fenced[..7] == JsonFence;
    assert fenced[7..|fenced| - 3] == inner;
  }

  /** Text ending in whitespace does not end in a fence. */
  lemma NoTrailingFence(inner: string)
    requires inner != [] && IsSpace(inner[|inner| - 1])
    ensures !EndsWith(inner, Fence)
  {
    if |Fence| <= |inner| {
      assert inner[|inner| - 3..][2] == inner[|inner| - 1];
    }
  }

  /** The steps of `CleanReply` on a reply fenced with "```json". */
  lemma CleanJsonFenced(text: string, fenced: string, inner: string)
    requires Trim(text) == fenced && StartsWith(fenced, JsonFence)
    requires DropEnds(fenced, 7, 3) == inner && !EndsWith(inner, Fence)
    ensures CleanReply(text) == Trim(inner)
  {
  }

  /** A reply that is not fenced at either end cleans to itself, trimmed. */
  lemma CleanUnfenced(front: string, body: string, back: string)
    requires AllSpace(front) && AllSpace(back) && IsTrimmed(body)
    requires !StartsWith(body, JsonFence) && !EndsWith(body, Fence)
    ensures CleanReply(front + body + back) == body
  {
    TrimPadded(front, body, back);
    TrimPadded("", body, "");
    assert "" + body + "" == body;
  }

  /** The session service: the ids it knows and the id it assigns to a new session. */
  datatype SessionService = SessionService(existing: set<string>, created: string)

  /** The session the stream runs in: the requested one when given and known, else a new one. */
  function ChosenSession(requested: Option<string>, service: SessionService): (id: string)
    ensures Truthy(requested) && requested.value in service.existing ==> id == requested.value
    ensures !Truthy(requested) || requested.value !in service.existing ==> id == service.created
  {
    if Truthy(requested) && requested.value in service.existing then requested.value else service.created
  }

  /** One agent event: the texts of its content parts (empty when it has no content). */
  datatype AgentEvent = AgentEvent(parts: seq<Option<string>>)

  /** The agent run: its events, and the message of an exception it raised, if any. */
  datatype AgentRun = AgentRun(events: seq<AgentEvent>, raised: Option<string>)

  /** The text of the first part of the last event that has parts. */
  function FinalText(events: seq<AgentEvent>): Option<string> {
    if events == [] then None
    else if |events[|events| - 1].parts| > 0 then events[|events| - 1].parts[0]
    else FinalText(events[..|events| - 1])
  }

  /** The loop of `event_generator` that keeps the text of the latest event with content. */
  method LastText(events: seq<AgentEvent>) returns (finalText: Option<string>)
    ensures finalText == FinalText(events)
  {
    finalText := None;
    var i := 0;
    while i < |events|
      invariant 0 <= i <= |events|
      invariant finalText == FinalText(events[..i])
    {
      assert events[..i + 1][..i] == events[..i];
      if |events[i].parts| > 0 {
        finalText := events[i].parts[0];
      }
      i := i + 1;
    }
    assert events[..i] == events;
  }

  /** The object of the directive frame for a non-empty agent reply. */
  function DirectiveEvent(reply: string, loads: string -> Option<Event>): Event {
    var parsed := loads(CleanReply(reply));
    if parsed.Some? then parsed.value else FallbackEvent()
  }

  /** `event_generator` of POST /api/chat: the frames it yields, in order. A failure of the
      session service yields one error frame; otherwise the session frame comes first, and
      then an error frame if the agent raised, the directive frame if the agent produced a
      non-empty text, and nothing more if it produced none. */
  method EventGenerator(requested: Option<string>, service: SessionService, serviceError: Option<string>,
                        run: AgentRun, dumps: Event -> string, loads: string -> Option<Event>)
    returns (frames: seq<string>)
    ensures serviceError.Some? ==> frames == [Frame(dumps(ErrorEvent(serviceError.value)))]
    ensures serviceError.None? ==> (|frames| >= 1
                                    && frames[0] == Frame(dumps(SessionEvent(ChosenSession(requested, service)))))
    ensures serviceError.None? && run.raised.Some? ==>
      |frames| == 2 && frames[1] == Frame(dumps(ErrorEvent(run.raised.value)))
    ensures serviceError.None? && run.raised.None? && !Truthy(FinalText(run.events)) ==> |frames| == 1
    ensures serviceError.None? && run.raised.None? && Truthy(FinalText(run.events)) ==>
      |frames| == 2 && frames[1] == Frame(dumps(DirectiveEvent(FinalText(run.events).value, loads)))
  {
    if serviceError.Some? {
      return [Frame(dumps(ErrorEvent(serviceError.value)))];
    }
    var sessionId := ChosenSession(requested, service);
    frames := [Frame(dumps(SessionEvent(sessionId)))];
    if run.raised.Some? {
      frames := frames + [Frame(dumps(ErrorEvent(run.raised.value)))];
      return;
    }
    var finalText := LastText(run.events);
    if Truthy(finalText) {
      var directive := DirectiveEvent(finalText.value, loads);
      frames := frames + [Frame(dumps(directive))];
    }
  }
}
