/** The chat turn of the single-page client: the typed message is trimmed and sent, the
    streamed frames are decoded as they arrive, a frame carrying a session id updates the
    session, and the last other frame becomes the view once the stream ends. */
module Chat {
  import opened Wrappers
  import opened Strings
  import opened Sse

  datatype Role = User | Assistant

  /** One chat-history entry; `content` is absent when the directive had no chatResponse. */
  datatype ChatMessage = ChatMessage(role: Role, content: Option<string>)

  /** The two layouts of the page: the centred prompt before the first message, the
      view-plus-chat-panel afterwards. */
  datatype Phase = Initial | Active

  /** The body of POST /api/chat. */
  datatype ChatRequest = ChatRequest(userId: string, sessionId: Option<string>, text: string)

  /** What the fetch of one turn delivers: the chunks read, in order, and whether the
      fetch or a later read threw after those chunks. */
  datatype Response = Response(chunks: seq<string>, failed: bool)

  const UserId := "user_123"
  const ErrorReply := "Sorry, an error occurred."

  /** The view before any directive: no view type, no payload, empty texts. */
  const InitialView := Event(None, None, None, Some(""), Some(""), None)

  /** The session id after a run of decoded objects: the last truthy `session_id` among them,
      or `initial` when none has one. */
  function LatestSession(events: seq<Event>, initial: Option<string>): (r: Option<string>)
    ensures r == initial || exists k :: 0 <= k < |events| && Truthy(events[k].sessionId) && events[k].sessionId == r
    ensures (forall k :: 0 <= k < |events| ==> !Truthy(events[k].sessionId)) ==> r == initial
  {
    if events == [] then initial
    else
      var e := events[|events| - 1];
      if Truthy(e.sessionId) then e.sessionId else LatestSession(events[..|events| - 1], initial)
  }

  /** The session is the id of the last object that carries a truthy one. */
  lemma {:induction false} LatestSessionIsLast(events: seq<Event>, initial: Option<string>, k: nat)
    requires k < |events| && Truthy(events[k].sessionId)
    requires forall j :: k < j < |events| ==> !Truthy(events[j].sessionId)
    ensures LatestSession(events, initial) == events[k].sessionId
    decreases |events|
  {
    var n := |events| - 1;
    if k < n {
      assert forall j :: k < j < n ==> events[..n][j] == events[j];
      LatestSessionIsLast(events[..n], initial, k);
    }
  }

  /** The directive candidate after a run of decoded objects: the last one without a truthy
      `session_id`, error objects included. */
  function Candidate(events: seq<Event>): (r: Option<Event>)
    ensures r.Some? ==> r.value in events && !Truthy(r.value.sessionId)
    ensures r.None? <==> forall k :: 0 <= k < |events| ==> Truthy(events[k].sessionId)
  {
    if events == [] then None
    else
      var e := events[|events| - 1];
      if Truthy(e.sessionId) then Candidate(events[..|events| - 1]) else Some(e)
  }

  /** The candidate is the last object without a truthy session id. */
  lemma {:induction false} CandidateIsLast(events: seq<Event>, k: nat)
    requires k < |events| && !Truthy(events[k].sessionId)
    requires forall j :: k < j < |events| ==> Truthy(events[j].sessionId)
    ensures Candidate(events) == Some(events[k])
    decreases |events|
  {
    var n := |events| - 1;
    if k < n {
      assert forall j :: k < j < n ==> events[..n][j] == events[j];
      CandidateIsLast(events[..n], k);
    }
  }

  /** The candidate of a run of objects, or `last` when the run has none. */
  function CandidateOr(events: seq<Event>, last: Option<Event>): Option<Event> {
    var c := Candidate(events);
    if c.Some? then c else last
  }

  /** The last session frame wins, wherever the chunk boundaries fall. */
  lemma {:induction false} LatestSessionConcat(a: seq<Event>, b: seq<Event>, initial: Option<string>)
    ensures LatestSession(a + b, initial) == LatestSession(b, LatestSession(a, initial))
    decreases |b|
  {
    if b == [] {
      assert a + b == a;
    } else {
      assert (a + b)[..|a + b| - 1] == a + b[..|b| - 1];
      LatestSessionConcat(a, b[..|b| - 1], initial);
    }
  }

  /** The last non-session frame wins, wherever the chunk boundaries fall. */
  lemma {:induction false} CandidateConcat(a: seq<Event>, b: seq<Event>)
    ensures Candidate(a + b) == if Candidate(b).Some? then Candidate(b) else Candidate(a)
    decreases |b|
  {
    if b == [] {
      assert a + b == a;
    } else {
      assert (a + b)[..|a + b| - 1] == a + b[..|b| - 1];
      CandidateConcat(a, b[..|b| - 1]);
    }
  }

  /** One more piece decodes to its object, or to nothing. */
  lemma PiecesStep(pieces: seq<string>, j: nat, parse: string -> Option<Event>)
    requires j < |pieces|
    ensures var e := DecodePiece(pieces[j], parse);
      DecodePieces(pieces[..j + 1], parse)
        == if e.Some? then DecodePieces(pieces[..j], parse) + [e.value] else DecodePieces(pieces[..j], parse)
  {
    assert pieces[..j + 1][..j] == pieces[..j];
    var e := DecodePiece(pieces[j], parse);
    if e.None? {
      assert DecodePieces(pieces[..j], parse) + [] == DecodePieces(pieces[..j], parse);
    }
  }

  /** One more object: a truthy session id becomes the session, anything else the candidate. */
  lemma EventStep(seen: seq<Event>, e: Event, initial: Option<string>, last: Option<Event>)
    ensures LatestSession(seen + [e], initial) == if Truthy(e.sessionId) then e.sessionId else LatestSession(seen, initial)
    ensures CandidateOr(seen + [e], last) == if Truthy(e.sessionId) then CandidateOr(seen, last) else Some(e)
  {
    assert (seen + [e])[..|seen|] == seen;
  }

  /** After one more piece: its object's truthy session id becomes the session, and an
      object without one becomes the candidate; a piece without an object changes neither. */
  lemma PieceStep(pieces: seq<string>, j: nat, parse: string -> Option<Event>,
                  initial: Option<string>, last: Option<Event>)
    requires j < |pieces|
    ensures var e := DecodePiece(pieces[j], parse);
      var seen := DecodePieces(pieces[..j], parse);
      && LatestSession(DecodePieces(pieces[..j + 1], parse), initial)
           == (if e.Some? && Truthy(e.value.sessionId) then e.value.sessionId else LatestSession(seen, initial))
      && CandidateOr(DecodePieces(pieces[..j + 1], parse), last)
           == (if e.Some? && !Truthy(e.value.sessionId) then e else CandidateOr(seen, last))
  {
    PiecesStep(pieces, j, parse);
    var e := DecodePiece(pieces[j], parse);
    if e.Some? {
      EventStep(DecodePieces(pieces[..j], parse), e.value, initial, last);
    }
  }

  /** The stream the server writes for a turn with a known or new session and a text reply,
      received in one chunk, leaves the client with that session and that directive. */
  lemma ServerStreamOutcome(sessionJson: string, directiveJson: string, id: string, directive: Event,
                            parse: string -> Option<Event>)
    requires '\n' !in sessionJson && '\n' !in directiveJson
    requires parse(sessionJson) == Some(SessionEvent(id)) && id != ""
    requires parse(directiveJson) == Some(directive) && !Truthy(directive.sessionId)
    ensures var events := DecodeChunk(Frames([sessionJson, directiveJson]), parse);
      LatestSession(events, None) == Some(id) && Candidate(events) == Some(directive)
  {
    var jsons := [sessionJson, directiveJson];
    RoundTrip(jsons, parse);
    var events := DecodeChunk(Frames(jsons), parse);
    assert events == [SessionEvent(id), directive] by {
      assert parse(jsons[0]) == Some(events[0]);
      assert parse(jsons[1]) == Some(events[1]);
    }
    assert events[..1] == [SessionEvent(id)];
  }

  /** The backend's error frame replaces the candidate directive like any other frame. */
  lemma ErrorFrameWins(before: seq<Event>, message: string)
    ensures Candidate(before + [ErrorEvent(message)]) == Some(ErrorEvent(message))
  {
    assert (before + [ErrorEvent(message)])[..|before|] == before;
  }

  /** The page state that a chat turn reads and writes. */
  class ChatController {
    var userInput: string
    var history: seq<ChatMessage>
    var currentView: Event
    var isLoading: bool
    var sessionId: Option<string>
    var mapsApiKey: Option<string>
    var appState: Phase

    constructor ()
      ensures userInput == "" && history == [] && currentView == InitialView
      ensures !isLoading && sessionId.None? && mapsApiKey.None? && appState == Initial
    {
      userInput := "";
      history := [];
      currentView := InitialView;
      isLoading := false;
      sessionId := None;
      mapsApiKey := None;
      appState := Initial;
    }

    /** The key fetch on mount: an answered request stores the key, a failed one leaves
        the key unset. */
    method LoadMapsKey(answer: Result<string>)
      modifies this
      ensures answer.Ok? ==> mapsApiKey == Some(answer.value)
      ensures answer.Err? ==> mapsApiKey == old(mapsApiKey)
      ensures userInput == old(userInput) && history == old(history) && currentView == old(currentView)
      ensures isLoading == old(isLoading) && sessionId == old(sessionId) && appState == old(appState)
    {
      if answer.Ok? {
        mapsApiKey := Some(answer.value);
      }
    }

    /** The read loop of a turn: every chunk in order, through `ReadChunk`. */
    method ReadStream(chunks: seq<string>, parse: string -> Option<Event>) returns (lastEventData: Option<Event>)
      modifies this
      ensures sessionId == LatestSession(DecodeChunks(chunks, parse), old(sessionId))
      ensures lastEventData == Candidate(DecodeChunks(chunks, parse))
      ensures userInput == old(userInput) && history == old(history) && currentView == old(currentView)
      ensures isLoading == old(isLoading) && mapsApiKey == old(mapsApiKey) && appState == old(appState)
    {
      lastEventData := None;
      var i := 0;
      while i < |chunks|
        invariant 0 <= i <= |chunks|
        invariant sessionId == LatestSession(DecodeChunks(chunks[..i], parse), old(sessionId))
        invariant lastEventData == Candidate(DecodeChunks(chunks[..i], parse))
        invariant userInput == old(userInput) && history == old(history) && currentView == old(currentView)
        invariant isLoading == old(isLoading) && mapsApiKey == old(mapsApiKey) && appState == old(appState)
      {
        ghost var before := DecodeChunks(chunks[..i], parse);
        var found := ReadChunk(chunks[i], lastEventData, parse);
        assert chunks[..i + 1][..i] == chunks[..i];
        LatestSessionConcat(before, DecodeChunk(chunks[i], parse), old(sessionId));
        CandidateConcat(before, DecodeChunk(chunks[i], parse));
        lastEventData := found;
        i := i + 1;
      }
      assert chunks[..i] == chunks;
    }

    /** One chunk: split on the blank line; each piece that starts with the prefix is
        parsed, a failed parse is dropped, a truthy session id updates the session and any
        other object replaces the candidate directive. */
    method ReadChunk(chunk: string, lastEventData: Option<Event>, parse: string -> Option<Event>)
      returns (candidate: Option<Event>)
      modifies this`sessionId
      ensures sessionId == LatestSession(DecodeChunk(chunk, parse), old(sessionId))
      ensures candidate == CandidateOr(DecodeChunk(chunk, parse), lastEventData)
      ensures userInput == old(userInput) && history == old(history) && currentView == old(currentView)
      ensures isLoading == old(isLoading) && mapsApiKey == old(mapsApiKey) && appState == old(appState)
    {
      candidate := lastEventData;
      var lines := Split(chunk, Separator);
      var j := 0;
      while j < |lines|
        invariant 0 <= j <= |lines|
        invariant sessionId == LatestSession(DecodePieces(lines[..j], parse), old(sessionId))
        invariant candidate == CandidateOr(DecodePieces(lines[..j], parse), lastEventData)
      {
        PieceStep(lines, j, parse, old(sessionId), lastEventData);
        candidate := ReadLine(lines[j], candidate, parse);
        j := j + 1;
      }
      assert lines[..j] == lines;
    }

    /** One piece of a chunk: when it starts with the prefix and parses, a truthy session id
        updates the session and any other object becomes the candidate. */
    method ReadLine(line: string, lastEventData: Option<Event>, parse: string -> Option<Event>)
      returns (candidate: Option<Event>)
      modifies this`sessionId
      ensures var e := DecodePiece(line, parse);
        && sessionId == (if e.Some? && Truthy(e.value.sessionId) then e.value.sessionId else old(sessionId))
        && candidate == (if e.Some? && !Truthy(e.value.sessionId) then e else lastEventData)
    {
      candidate := lastEventData;
      if StartsWith(line, Prefix) {
        var eventData := parse(line[|Prefix|..]);
        if eventData.Some? {
          if Truthy(eventData.value.sessionId) {
            sessionId := eventData.value.sessionId;
          } else {
            candidate := eventData;
          }
        }
      }
    }

    /** `handleSendMessage`: returns the request it sends, or None when the trimmed
        message is empty, in which case nothing changes. */
    method SendMessage(message: string, response: Response, parse: string -> Option<Event>)
      returns (request: Option<ChatRequest>)
      modifies this
      ensures Trim(message) == [] ==> request.None?
      ensures Trim(message) == [] ==>
        userInput == old(userInput) && history == old(history) && currentView == old(currentView)
        && isLoading == old(isLoading) && sessionId == old(sessionId) && appState == old(appState)
      ensures Trim(message) != [] ==> request == Some(ChatRequest(UserId, old(sessionId), Trim(message)))
      ensures Trim(message) != [] ==>
        appState == Active && userInput == "" && !isLoading
        && sessionId == LatestSession(DecodeChunks(response.chunks, parse), old(sessionId))
      ensures Trim(message) != [] && response.failed ==>
        history == old(history) + [ChatMessage(User, Some(Trim(message)))] + [ChatMessage(Assistant, Some(ErrorReply))]
        && currentView == old(currentView)
      ensures Trim(message) != [] && !response.failed ==>
        match Candidate(DecodeChunks(response.chunks, parse))
        case Some(directive) =>
          currentView == directive
          && history == old(history) + [ChatMessage(User, Some(Trim(message)))] + [ChatMessage(Assistant, directive.chatResponse)]
        case None =>
          currentView == old(currentView) && history == old(history) + [ChatMessage(User, Some(Trim(message)))]
      ensures mapsApiKey == old(mapsApiKey)
    {
      var userMessage := Trim(message);
      if userMessage == [] {
        return None;
      }
      var sent := Accept(userMessage);
      request := Some(sent);

      var lastEventData := ReadStream(response.chunks, parse);

      Commit(response.failed, lastEventData);
    }

    /** The synchronous start of a turn: the page becomes active, the spinner starts, the
        user's entry is appended, the input is cleared and the request is built with the
        session id held so far. */
    method Accept(userMessage: string) returns (request: ChatRequest)
      modifies this
      ensures request == ChatRequest(UserId, old(sessionId), userMessage)
      ensures appState == Active && isLoading && userInput == ""
      ensures history == old(history) + [ChatMessage(User, Some(userMessage))]
      ensures currentView == old(currentView) && sessionId == old(sessionId) && mapsApiKey == old(mapsApiKey)
    {
      if appState == Initial {
        appState := Active;
      }
      isLoading := true;
      history := history + [ChatMessage(User, Some(userMessage))];
      userInput := "";
      request := ChatRequest(UserId, sessionId, userMessage);
    }

    /** The end of a turn: a thrown error appends the error reply; otherwise a candidate
        becomes the view and its chatResponse is appended; loading ends in every case. */
    method Commit(failed: bool, lastEventData: Option<Event>)
      modifies this
      ensures failed ==> history == old(history) + [ChatMessage(Assistant, Some(ErrorReply))]
      ensures failed || lastEventData.None? ==> currentView == old(currentView)
      ensures !failed && lastEventData.Some? ==>
        currentView == lastEventData.value
        && history == old(history) + [ChatMessage(Assistant, lastEventData.value.chatResponse)]
      ensures !failed && lastEventData.None? ==> history == old(history)
      ensures !isLoading
      ensures userInput == old(userInput) && sessionId == old(sessionId)
      ensures mapsApiKey == old(mapsApiKey) && appState == old(appState)
    {
      if failed {
        history := history + [ChatMessage(Assistant, Some(ErrorReply))];
      } else if lastEventData.Some? {
        currentView := lastEventData.value;
        history := history + [ChatMessage(Assistant, lastEventData.value.chatResponse)];
      }
      isLoading := false;
    }
  }
}
