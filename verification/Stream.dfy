/** Streamed answers (`internal/server/handlers.go`): what a provider's stream brings, and what the
    handler writes for it. */
module Stream {
  import opened Wrappers
  import opened Retry
  import opened EventStream

  /** One receive: a chunk, encoded if the encoder accepts it, or a failure. */
  datatype Recv = Chunk(json: Option<string>) | Broken(message: string)

  /** `done` says whether the client's context is done when the handler looks, before it receives. */
  datatype Turn = Turn(done: bool, recv: Recv)

  /** The turns of a stream; after the last one it reports its end. */
  type Turns = seq<Turn>

  /** How opening a stream went. A provider may also report success and hand over no stream. */
  datatype Open = Opened(stream: Option<Turns>) | Refused(error: Error)

  const DONE: string := "[DONE]"
  const NOT_ENCODED: string := "internal error: failed to encode response"
  const NO_STREAM: string := "internal error: stream initialization failed"

  /** `sanitize` removes keys from a message, `encode` makes the error object of a message. */
  datatype Texts = Texts(sanitize: string -> string, encode: string -> string)

  /** Is the next turn the last one that is looked at? */
  predicate Stops(turn: Turn) { turn.done || turn.recv.Broken? || turn.recv.json == None }

  /** The first turn that stops the stream, or their number. */
  function StopAt(turns: Turns): (k: nat)
    ensures k <= |turns| && (k < |turns| ==> Stops(turns[k])) && forall j :: 0 <= j < k ==> !Stops(turns[j])
  {
    if turns == [] || Stops(turns[0]) then 0 else 1 + StopAt(turns[1..])
  }

  function Chunks(turns: Turns): seq<string>
    requires forall i :: 0 <= i < |turns| ==> !Stops(turns[i])
  {
    seq(|turns|, i requires 0 <= i < |turns| => assert !Stops(turns[i]); turns[i].recv.json.value)
  }

  /** A stream that fails is ended by one error, a client that left or the end of the stream by none. */
  function Errors(texts: Texts, rest: Turns): seq<string>
  {
    if rest == [] || rest[0].done then []
    else if rest[0].recv.Broken? then [texts.encode(texts.sanitize(rest[0].recv.message))]
    else [texts.encode(NOT_ENCODED)]
  }

  /** The chunks before the first stop, at most one error, and one end mark. */
  function Payloads(texts: Texts, turns: Turns): seq<string>
  {
    var k := StopAt(turns);
    Chunks(turns[..k]) + Errors(texts, turns[k..]) + [DONE]
  }

  lemma StopFrom(turns: Turns, k: nat)
    requires k <= |turns| && forall j :: 0 <= j < k ==> !Stops(turns[j])
    ensures StopAt(turns) >= k
    ensures k == |turns| || Stops(turns[k]) ==> StopAt(turns) == k
  {
    var stop := StopAt(turns);
    assert !(stop < k);
  }

  lemma FramesConcat(a: seq<string>, b: seq<string>)
    ensures Frames(a + b) == Frames(a) + Frames(b)
  {
    if a == [] {
      assert a + b == b;
    } else {
      assert (a + b)[1..] == a[1..] + b;
      FramesConcat(a[1..], b);
    }
  }

  lemma FramesOne(data: string)
    ensures Frames([data]) == Frame(data)
  {
    assert [data][1..] == [];
  }

  method WriteFrame(out: string, data: string) returns (out': string)
    ensures out' == out + Frames([data])
  {
    FramesOne(data);
    out' := out + "data: ";
    out' := out' + data;
    out' := out' + "\n\n";
  }

  /** The receive loop of the handler. */
  method Relay(texts: Texts, turns: Turns) returns (out: string)
    ensures out == Frames(Payloads(texts, turns))
  {
    out := "";
    var k := 0;
    ghost var sent: seq<string> := [];
    while k < |turns| && !turns[k].done
      invariant k <= |turns| && (forall j :: 0 <= j < k ==> !Stops(turns[j]))
      invariant sent == Chunks(turns[..k]) && out == Frames(sent)
    {
      StopFrom(turns, k);
      match turns[k].recv {
        case Broken(message) =>
          out := Finish(out, sent, Some(texts.encode(texts.sanitize(message))));
          return;
        case Chunk(None) =>
          out := Finish(out, sent, Some(texts.encode(NOT_ENCODED)));
          return;
        case Chunk(Some(json)) =>
          FramesConcat(sent, [json]);
          out := WriteFrame(out, json);
          sent := sent + [json];
          assert turns[..k + 1] == turns[..k] + [turns[k]];
      }
      k := k + 1;
    }
    StopFrom(turns, k);
    out := Finish(out, sent, None);
  }

  /** An error, if there is one, and the end mark. */
  method Finish(out: string, ghost sent: seq<string>, error: Option<string>) returns (out': string)
    requires out == Frames(sent)
    ensures out' == Frames(sent + (if error.Some? then [error.value] else []) + [DONE])
  {
    out' := out;
    var errors := if error.Some? then [error.value] else [];
    if error.Some? {
      out' := WriteFrame(out', error.value);
    }
    FramesConcat(sent, errors);
    FramesConcat(sent + errors, [DONE]);
    out' := WriteFrame(out', DONE);
  }

  ghost predicate CleanTexts(texts: Texts) { forall m :: Breakless(texts.encode(m)) }

  ghost predicate CleanTurns(turns: Turns)
  {
    forall turn :: turn in turns && turn.recv.Chunk? && turn.recv.json.Some? ==>
      Breakless(turn.recv.json.value) && turn.recv.json.value != DONE
  }

  /** The chunks of the turns before `k`, the error of a broken stream or of a chunk that cannot be encoded at
      `k`, and the end mark, which is there once. A client that has left and a stream at its end get no error. */
  ghost predicate ReadsUpTo(texts: Texts, turns: Turns, events: seq<string>, k: nat)
  {
    && k <= |turns| && k < |events|
    && (forall j :: 0 <= j < k ==> turns[j] == Turn(false, Chunk(Some(events[j]))))
    && (k < |turns| ==> turns[k].done || turns[k].recv.Broken? || turns[k].recv == Chunk(None))
    && events[k..] ==
         (if k == |turns| || turns[k].done then []
          else match turns[k].recv
            case Broken(message) => [texts.encode(texts.sanitize(message))]
            case Chunk(_) => [texts.encode("internal error: failed to encode response")])
         + ["[DONE]"]
    && forall i :: 0 <= i < |events| ==> (events[i] == "[DONE]" <==> i == |events| - 1)
  }

  lemma PayloadShape(texts: Texts, turns: Turns)
    requires CleanTexts(texts) && CleanTurns(turns) && forall m :: texts.encode(m) != DONE
    ensures ReadsUpTo(texts, turns, Payloads(texts, turns), StopAt(turns))
    ensures forall p :: p in Payloads(texts, turns) ==> Breakless(p)
  {
    hide Breakless;
    var k := StopAt(turns);
    var chunks, errors := Chunks(turns[..k]), Errors(texts, turns[k..]);
    forall i | 0 <= i < k
      ensures Breakless(chunks[i]) && chunks[i] != DONE && turns[i] == Turn(false, Chunk(Some(chunks[i])))
    {
      assert turns[i] in turns;
    }
    DoneIsClean();
    assert Payloads(texts, turns)[k..] == errors + [DONE];
  }

  lemma DoneIsClean()
    ensures Breakless(DONE)
  {
  }

  ghost predicate ReadsAs(texts: Texts, turns: Turns, events: seq<string>)
  {
    exists k: nat :: ReadsUpTo(texts, turns, events, k)
  }

  /** Main result: a client reading by the event stream rules gets back exactly the chunks before the
      first stop, then at most one error, then the end mark, which it sees once, and last. The error of a
      broken stream is its message with keys removed, that of a chunk that cannot be encoded a fixed text. */
  lemma {:induction false} ClientSees(texts: Texts, turns: Turns)
    requires CleanTexts(texts) && CleanTurns(turns) && forall m :: texts.encode(m) != DONE
    ensures ReadsAs(texts, turns, Parse(Frames(Payloads(texts, turns))))
  {
    hide Payloads, Parse, Frames, Breakless, StopAt, CleanTexts, CleanTurns;
    var payloads := Payloads(texts, turns);
    PayloadShape(texts, turns);
    RoundTripIff(payloads);
  }
}
