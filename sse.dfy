/** The server-sent-event frames of `/api/chat`: the server writes each JSON object as
    `data: <json>` followed by a blank line; the client splits each received chunk on the
    blank line, keeps the pieces that start with `data: ` and parses the rest of each. */
module Sse {
  import opened Wrappers
  import opened Strings

  const Prefix := "data: "
  const Separator := "\n\n"

  /** The payload fields the views read. */
  datatype Payload = Payload(
    activityIds: Option<seq<string>>,
    dayNumbers: Option<seq<int>>,
    activityId: Option<string>,
    text: Option<string>)

  /** A JSON object carried by one frame, restricted to the keys the client reads. */
  datatype Event = Event(
    sessionId: Option<string>,
    viewType: Option<string>,
    payload: Option<Payload>,
    responseSummary: Option<string>,
    chatResponse: Option<string>,
    error: Option<string>)

  /** JavaScript truthiness of an optional string: present and non-empty. */
  predicate Truthy(s: Option<string>) {
    s.Some? && s.value != ""
  }

  /** `{'session_id': id}`. */
  function SessionEvent(id: string): Event {
    Event(Some(id), None, None, None, None, None)
  }

  /** `{'error': message}`. */
  function ErrorEvent(message: string): Event {
    Event(None, None, None, None, None, Some(message))
  }

  /** The reply sent when the agent's text is not JSON: no chatResponse key. */
  function FallbackEvent(): Event {
    Event(None, Some("simple_response"),
      Some(Payload(None, None, None, Some("Sorry, I received an unexpected response. Please try again."))),
      Some("Error"), None, None)
  }

  /** One frame as the server writes it. */
  function Frame(json: string): string {
    Prefix + json + Separator
  }

  /** Frames written one after another. */
  function Frames(jsons: seq<string>): string {
    if jsons == [] then "" else Frame(jsons[0]) + Frames(jsons[1..])
  }

  /** One piece of a split chunk: parsed when it starts with the prefix, from the seventh
      character on; a failed parse and a piece without the prefix yield nothing. */
  function DecodePiece(piece: string, parse: string -> Option<Event>): Option<Event> {
    if StartsWith(piece, Prefix) then parse(piece[|Prefix|..]) else None
  }

  function DecodePieces(pieces: seq<string>, parse: string -> Option<Event>): seq<Event> {
    if pieces == [] then []
    else
      var e := DecodePiece(pieces[|pieces| - 1], parse);
      DecodePieces(pieces[..|pieces| - 1], parse) + (if e.Some? then [e.value] else [])
  }

  /** The objects one chunk yields, in order. */
  function DecodeChunk(chunk: string, parse: string -> Option<Event>): seq<Event> {
    DecodePieces(Split(chunk, Separator), parse)
  }

  /** The objects a sequence of chunks yields; frames split across chunks are not rejoined. */
  function DecodeChunks(chunks: seq<string>, parse: string -> Option<Event>): seq<Event> {
    if chunks == [] then []
    else DecodeChunks(chunks[..|chunks| - 1], parse) + DecodeChunk(chunks[|chunks| - 1], parse)
  }

  /** The pieces a split of `Frames(jsons)` produces before the trailing "". */
  function Pieces(jsons: seq<string>): (r: seq<string>)
    ensures |r| == |jsons| && forall i :: 0 <= i < |jsons| ==> r[i] == Prefix + jsons[i]
  {
    seq(|jsons|, i requires 0 <= i < |jsons| => Prefix + jsons[i])
  }

  lemma {:induction false} FramesAsJoin(jsons: seq<string>)
    ensures Frames(jsons) == Join(Pieces(jsons) + [""], Separator)
    decreases |jsons|
  {
    if jsons != [] {
      FramesAsJoin(jsons[1..]);
      var ps := Pieces(jsons) + [""];
      assert ps[1..] == Pieces(jsons[1..]) + [""];
    }
  }

  lemma {:induction false} DecodePiecesConcat(a: seq<string>, b: seq<string>, parse: string -> Option<Event>)
    ensures DecodePieces(a + b, parse) == DecodePieces(a, parse) + DecodePieces(b, parse)
    decreases |b|
  {
    if b == [] {
      assert a + b == a;
    } else {
      assert (a + b)[..|a + b| - 1] == a + b[..|b| - 1];
      DecodePiecesConcat(a, b[..|b| - 1], parse);
    }
  }

  lemma {:induction false} DecodeFramedPieces(jsons: seq<string>, parse: string -> Option<Event>)
    requires forall i :: 0 <= i < |jsons| ==> parse(jsons[i]).Some?
    ensures var r := DecodePieces(Pieces(jsons), parse);
      |r| == |jsons| && forall i :: 0 <= i < |jsons| ==> parse(jsons[i]) == Some(r[i])
    decreases |jsons|
  {
    if jsons != [] {
      var init := jsons[..|jsons| - 1];
      assert Pieces(jsons)[..|jsons| - 1] == Pieces(init);
      DecodeFramedPieces(init, parse);
      var last := Prefix + jsons[|jsons| - 1];
      assert StartsWith(last, Prefix) && last[|Prefix|..] == jsons[|jsons| - 1];
    }
  }

  /** Round trip: a chunk holding the frames the server writes decodes to exactly the
      objects those frames carry, in order, when no JSON text contains a newline and
      every one of them parses. */
  lemma RoundTrip(jsons: seq<string>, parse: string -> Option<Event>)
    requires forall i :: 0 <= i < |jsons| ==> '\n' !in jsons[i] && parse(jsons[i]).Some?
    ensures var r := DecodeChunk(Frames(jsons), parse);
      |r| == |jsons| && forall i :: 0 <= i < |jsons| ==> parse(jsons[i]) == Some(r[i])
  {
    var ps := Pieces(jsons) + [""];
    forall i | 0 <= i < |ps| ensures Separator[0] !in ps[i] {
      if i < |jsons| {
        assert ps[i] == Prefix + jsons[i];
        assert '\n' !in Prefix;
      }
    }
    FramesAsJoin(jsons);
    SplitJoin(ps, Separator);
    DecodePiecesConcat(Pieces(jsons), [""], parse);
    assert DecodePieces([""], parse) == [] by {
      assert !StartsWith("", Prefix);
      assert [""][..0] == [];
    }
    DecodeFramedPieces(jsons, parse);
  }

  /** Each frame as a chunk of its own. */
  function FramePerChunk(jsons: seq<string>): (r: seq<string>)
    ensures |r| == |jsons| && forall i :: 0 <= i < |jsons| ==> r[i] == Frame(jsons[i])
  {
    seq(|jsons|, i requires 0 <= i < |jsons| => Frame(jsons[i]))
  }

  /** Round trip when every frame arrives in a chunk of its own. */
  lemma {:induction false} RoundTripPerChunk(jsons: seq<string>, parse: string -> Option<Event>)
    requires forall i :: 0 <= i < |jsons| ==> '\n' !in jsons[i] && parse(jsons[i]).Some?
    ensures var r := DecodeChunks(FramePerChunk(jsons), parse);
      |r| == |jsons| && forall i :: 0 <= i < |jsons| ==> parse(jsons[i]) == Some(r[i])
    decreases |jsons|
  {
    if jsons != [] {
      var n := |jsons|;
      var init := jsons[..n - 1];
      var front := DecodeChunks(FramePerChunk(init), parse);
      var r := DecodeChunks(FramePerChunk(jsons), parse);
      PerChunkStep(jsons, parse);
      RoundTripPerChunk(init, parse);
      SingleFrame(jsons[n - 1], parse);
      assert r == front + [parse(jsons[n - 1]).value];
      forall i | 0 <= i < n ensures parse(jsons[i]) == Some(r[i]) {
        if i < n - 1 {
          assert init[i] == jsons[i] && r[i] == front[i];
        }
      }
    }
  }

  /** The last frame's chunk adds its own objects after the earlier chunks'. */
  lemma PerChunkStep(jsons: seq<string>, parse: string -> Option<Event>)
    requires jsons != []
    ensures DecodeChunks(FramePerChunk(jsons), parse)
      == DecodeChunks(FramePerChunk(jsons[..|jsons| - 1]), parse) + DecodeChunk(Frame(jsons[|jsons| - 1]), parse)
  {
    var chunks := FramePerChunk(jsons);
    assert chunks[..|jsons| - 1] == FramePerChunk(jsons[..|jsons| - 1]);
  }

  /** A chunk holding one frame yields exactly that frame's object. */
  lemma SingleFrame(json: string, parse: string -> Option<Event>)
    requires '\n' !in json && parse(json).Some?
    ensures DecodeChunk(Frame(json), parse) == [parse(json).value]
  {
    assert Frames([json]) == Frame(json);
    RoundTrip([json], parse);
  }
}
