// The parts of internal/provider/types.go that the agent loop looks at.
module Provider {
  import opened Wrappers

  // A tool_use content part: its id, the tool's name and the input as JSON text.
  datatype ToolCall = ToolCall(id: string, name: string, input: string)

  // A tool definition; only the name plays a part in tool selection.
  datatype ToolDef = ToolDef(name: string, description: string)

  datatype Role = SystemRole | UserRole | AssistantRole | ToolRole

  datatype FinishReason = Unset | Stop | Length | ToolUse | Filtered

  datatype StreamEvent =
    | TextChunk(text: string)
    | ToolUseEvent(call: ToolCall)
    | DoneEvent(finish: FinishReason)
    | ErrorEvent(error: string)

  // Opening a model stream fails, or yields its events.
  datatype StreamOpen = OpenFailed(error: string) | Opened(events: seq<StreamEvent>)

  datatype Response = StreamError(error: string) | Response(text: string, calls: seq<ToolCall>, finish: FinishReason)

  // CollectStream: texts joined, calls in order, the last finish reason; the
  // first error event ends it.
  function CollectOnto(events: seq<StreamEvent>, text: string, calls: seq<ToolCall>, finish: FinishReason): Response
    decreases |events|
  {
    if events == [] then Response(text, calls, finish)
    else
      match events[0]
      case TextChunk(t) => CollectOnto(events[1..], text + t, calls, finish)
      case ToolUseEvent(c) => CollectOnto(events[1..], text, calls + [c], finish)
      case DoneEvent(f) => CollectOnto(events[1..], text, calls, f)
      case ErrorEvent(e) => StreamError(e)
  }

  function Collect(open: StreamOpen): Response {
    match open
    case OpenFailed(e) => StreamError(e)
    case Opened(events) => CollectOnto(events, "", [], Unset)
  }

  // ------------------------------------------------------------------
  // What is collected
  // ------------------------------------------------------------------

  function Texts(events: seq<StreamEvent>): string
    decreases |events|
  {
    if events == [] then ""
    else if events[0].TextChunk? then events[0].text + Texts(events[1..]) else Texts(events[1..])
  }

  function Calls(events: seq<StreamEvent>): seq<ToolCall>
    decreases |events|
  {
    if events == [] then []
    else if events[0].ToolUseEvent? then [events[0].call] + Calls(events[1..]) else Calls(events[1..])
  }

  // The finish reason of the last done event, if there is one.
  function Finish(events: seq<StreamEvent>, default: FinishReason): FinishReason
    decreases |events|
  {
    if events == [] then default
    else if events[|events| - 1].DoneEvent? then events[|events| - 1].finish
    else Finish(events[..|events| - 1], default)
  }

  predicate NoError(events: seq<StreamEvent>) { forall i :: 0 <= i < |events| ==> !events[i].ErrorEvent? }

  lemma {:induction false} FinishCons(events: seq<StreamEvent>, default: FinishReason)
    requires events != []
    ensures Finish(events, default) ==
            Finish(events[1..], if events[0].DoneEvent? then events[0].finish else default)
    decreases |events|
  {
    var n := |events| - 1;
    if n > 0 && !events[n].DoneEvent? {
      FinishCons(events[..n], default);
      assert events[..n][1..] == events[1..][..n - 1];
    }
  }

  lemma {:induction false} CollectsOnto(events: seq<StreamEvent>, text: string, calls: seq<ToolCall>,
                                        finish: FinishReason)
    requires NoError(events)
    ensures CollectOnto(events, text, calls, finish) ==
            Response(text + Texts(events), calls + Calls(events), Finish(events, finish))
    decreases |events|
  {
    if events != [] {
      FinishCons(events, finish);
      assert !events[0].ErrorEvent?;
      match events[0]
      case TextChunk(t) =>
        CollectsOnto(events[1..], text + t, calls, finish);
        assert text + t + Texts(events[1..]) == text + (t + Texts(events[1..]));
      case ToolUseEvent(c) =>
        CollectsOnto(events[1..], text, calls + [c], finish);
        assert calls + [c] + Calls(events[1..]) == calls + ([c] + Calls(events[1..]));
      case DoneEvent(f) =>
        CollectsOnto(events[1..], text, calls, f);
    }
  }

  lemma {:induction false} StopsAtError(events: seq<StreamEvent>, i: nat, text: string, calls: seq<ToolCall>,
                                        finish: FinishReason)
    requires i < |events| && events[i].ErrorEvent? && NoError(events[..i])
    ensures CollectOnto(events, text, calls, finish) == StreamError(events[i].error)
    decreases i
  {
    if i > 0 {
      assert events[0] == events[..i][0];
      assert events[1..][..i - 1] == events[..i][1..];
      match events[0]
      case TextChunk(t) => StopsAtError(events[1..], i - 1, text + t, calls, finish);
      case ToolUseEvent(c) => StopsAtError(events[1..], i - 1, text, calls + [c], finish);
      case DoneEvent(f) => StopsAtError(events[1..], i - 1, text, calls, f);
    }
  }

  // A stream without an error gives its joined texts, its calls in order and its last
  // finish reason; one with an error gives the first.
  lemma CollectIs(events: seq<StreamEvent>)
    ensures NoError(events) ==>
              Collect(Opened(events)) == Response(Texts(events), Calls(events), Finish(events, Unset))
    ensures forall i: nat :: i < |events| && events[i].ErrorEvent? && NoError(events[..i]) ==>
              Collect(Opened(events)) == StreamError(events[i].error)
  {
    if NoError(events) {
      CollectsOnto(events, "", [], Unset);
    }
    forall i: nat | i < |events| && events[i].ErrorEvent? && NoError(events[..i])
      ensures Collect(Opened(events)) == StreamError(events[i].error)
    {
      StopsAtError(events, i, "", [], Unset);
    }
  }

  // Joining streams joins their texts and their calls.
  lemma {:induction false} TextsJoin(a: seq<StreamEvent>, b: seq<StreamEvent>)
    ensures Texts(a + b) == Texts(a) + Texts(b) && Calls(a + b) == Calls(a) + Calls(b)
    decreases |a|
  {
    if a == [] {
      assert a + b == b;
    } else {
      assert (a + b)[1..] == a[1..] + b;
      TextsJoin(a[1..], b);
    }
  }

  lemma OneEvent(text: string, call: ToolCall, f: FinishReason)
    ensures Texts([TextChunk(text)]) == text && Calls([TextChunk(text)]) == []
    ensures Texts([ToolUseEvent(call)]) == "" && Calls([ToolUseEvent(call)]) == [call]
    ensures Texts([DoneEvent(f)]) == "" && Calls([DoneEvent(f)]) == []
    ensures Finish([DoneEvent(f)], Unset) == f
  {
    assert [TextChunk(text)][1..] == [] && [ToolUseEvent(call)][1..] == [] && [DoneEvent(f)][1..] == [];
  }

  // Only a done event changes the finish reason, and the last one counts.
  lemma FinishSnoc(events: seq<StreamEvent>, e: StreamEvent)
    ensures Finish(events + [e], Unset) == if e.DoneEvent? then e.finish else Finish(events, Unset)
  {
    assert (events + [e])[..|events|] == events;
  }
}
