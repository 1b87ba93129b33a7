/** The text and reasoning a provider pass accumulates, and the history entries and tool invocations
    they end up in. */
module ProviderOutput {

  /** White space in the sense of strings.TrimSpace. */
  predicate IsSpace(c: char) {
    || '\t' <= c <= '\r' || c == ' ' || c == '\U{85}' || c == '\U{A0}' || c == '\U{1680}'
    || '\U{2000}' <= c <= '\U{200A}' || c == '\U{2028}' || c == '\U{2029}' || c == '\U{202F}'
    || c == '\U{205F}' || c == '\U{3000}'
  }

  predicate IsBlank(s: string) { forall i :: 0 <= i < |s| ==> IsSpace(s[i]) }

  const OPENAI_RESPONSES := "openai_responses"

  datatype Reasoning = Reasoning(content: string, signature: string, source: string)

  const Nothing := Reasoning("", "", "")

  /** hasReplayableReasoningPayload */
  predicate Replayable(r: Reasoning) {
    !IsBlank(r.content) || (!IsBlank(r.signature) && r.source == OPENAI_RESPONSES)
  }

  datatype Entry = AssistantText(text: string, reasoning: Reasoning) | Invocation(call: string, reasoning: Reasoning)

  datatype Event =
    | TextDelta(text: string)
    | ThinkingDelta(text: string)
    | ThinkingCompleted(signature: string, source: string)
    | ToolCompleted(call: string)
    | Other

  datatype Pass = Pass(text: string, reasoning: Reasoning, tools: nat, entries: seq<Entry>)

  const Begin := Pass("", Nothing, 0, [])

  // ---------------------------------------------------------------- what the handlers do

  function WithTool(p: Pass, call: string): Pass {
    Pass("", Nothing, p.tools + 1,
         p.entries + if IsBlank(p.text) then [Invocation(call, p.reasoning)]
                     else [AssistantText(p.text, p.reasoning), Invocation(call, Nothing)])
  }

  function Apply(p: Pass, e: Event): Pass {
    match e
    case TextDelta(text) => p.(text := p.text + text)
    case ThinkingDelta(text) => p.(reasoning := p.reasoning.(content := p.reasoning.content + text))
    case ThinkingCompleted(signature, source) =>
      if IsBlank(signature) then p else p.(reasoning := Reasoning(p.reasoning.content, signature, source))
    case ToolCompleted(call) => WithTool(p, call)
    case Other => p
  }

  /** flushAssistantText writes an entry unless there is nothing in it worth one. */
  predicate Flushes(text: string, reasoning: Reasoning, allowReasoningOnly: bool) {
    !IsBlank(text) || (allowReasoningOnly && Replayable(reasoning))
  }

  /** An error-free end of the pass. */
  function Finish(p: Pass): Pass {
    Pass("", Nothing, 0,
         if Flushes(p.text, p.reasoning, p.tools == 0) then p.entries + [AssistantText(p.text, p.reasoning)]
         else p.entries)
  }

  function ApplyAll(events: seq<Event>): Pass {
    if events == [] then Begin else Apply(ApplyAll(events[..|events| - 1]), events[|events| - 1])
  }

  class Stream {
    var text: string
    var reasoning: Reasoning
    var tools: nat
    var entries: seq<Entry>

    function View(): Pass
      reads this
    {
      Pass(text, reasoning, tools, entries)
    }

    constructor ()
      ensures View() == Begin
    {
      text, reasoning, tools, entries := "", Nothing, 0, [];
    }

    /** takeProviderOutputForTool hands the pending output over and forgets it. */
    method TakeOutputForTool() returns (t: string, r: Reasoning)
      modifies this`text, this`reasoning
      ensures t == old(text) && r == old(reasoning)
      ensures text == "" && reasoning == Nothing
    {
      t, r := text, reasoning;
      text, reasoning := "", Nothing;
    }

    method FlushAssistantText(t: string, r: Reasoning, allowReasoningOnly: bool)
      modifies this`entries
      ensures entries == if Flushes(t, r, allowReasoningOnly) then old(entries) + [AssistantText(t, r)]
                         else old(entries)
    {
      if IsBlank(t) && (!allowReasoningOnly || !Replayable(r)) { return; }
      entries := entries + [AssistantText(t, r)];
    }

    method HandleEvent(e: Event)
      modifies this
      ensures View() == Apply(old(View()), e)
    {
      match e
      case TextDelta(delta) => text := text + delta;
      case ThinkingDelta(delta) => reasoning := reasoning.(content := reasoning.content + delta);
      case ThinkingCompleted(signature, source) =>
        if !IsBlank(signature) {
          reasoning := reasoning.(signature := signature, source := source);
        }
      case ToolCompleted(call) =>
        var t, r := TakeOutputForTool();
        if !IsBlank(t) {
          FlushAssistantText(t, r, false);
          r := Nothing;
        }
        entries := entries + [Invocation(call, r)];
        tools := tools + 1;
      case Other =>
    }

    method HandleDone()
      modifies this
      ensures View() == Finish(old(View()))
    {
      var t, r, hadTool := text, reasoning, tools > 0;
      text, reasoning, tools := "", Nothing, 0;
      FlushAssistantText(t, r, !hadTool);
    }
  }

  // ---------------------------------------------------------------- what is conserved

  function Heard(e: Event): string { if e.TextDelta? then e.text else "" }
  function Thought(e: Event): string { if e.ThinkingDelta? then e.text else "" }
  function Called(e: Event): seq<string> { if e.ToolCompleted? then [e.call] else [] }

  function TextOf(events: seq<Event>): string {
    if events == [] then "" else TextOf(events[..|events| - 1]) + Heard(events[|events| - 1])
  }

  function ThinkingOf(events: seq<Event>): string {
    if events == [] then "" else ThinkingOf(events[..|events| - 1]) + Thought(events[|events| - 1])
  }

  function Calls(events: seq<Event>): seq<string> {
    if events == [] then [] else Calls(events[..|events| - 1]) + Called(events[|events| - 1])
  }

  /** The text and the reasoning received since the last tool call. */
  function TailText(events: seq<Event>): string {
    if events == [] || events[|events| - 1].ToolCompleted? then ""
    else TailText(events[..|events| - 1]) + Heard(events[|events| - 1])
  }

  function TailThinking(events: seq<Event>): string {
    if events == [] || events[|events| - 1].ToolCompleted? then ""
    else TailThinking(events[..|events| - 1]) + Thought(events[|events| - 1])
  }

  /** The last signature received since the last tool call that is more than white space, with its source. */
  function TailSigned(events: seq<Event>): (string, string) {
    if events == [] || events[|events| - 1].ToolCompleted? then ("", "")
    else
      var last := events[|events| - 1];
      if last.ThinkingCompleted? && !IsBlank(last.signature) then (last.signature, last.source)
      else TailSigned(events[..|events| - 1])
  }

  /** All the reasoning received since the last tool call. */
  function TailReasoning(events: seq<Event>): Reasoning {
    Reasoning(TailThinking(events), TailSigned(events).0, TailSigned(events).1)
  }

  /** What follows the last tool call is worth an entry: a text of more than white space, or, in a pass
      without tools, reasoning that can be replayed. */
  predicate EndsInEntry(events: seq<Event>) {
    var signed := TailSigned(events);
    || !IsBlank(TailText(events))
    || (Calls(events) == []
        && (!IsBlank(TailThinking(events)) || (!IsBlank(signed.0) && signed.1 == "openai_responses")))
  }

  function WrittenText(entries: seq<Entry>): string {
    if entries == [] then ""
    else
      var last := entries[|entries| - 1];
      WrittenText(entries[..|entries| - 1]) + if last.AssistantText? then last.text else ""
  }

  function WrittenReasoning(entries: seq<Entry>): string {
    if entries == [] then ""
    else WrittenReasoning(entries[..|entries| - 1]) + entries[|entries| - 1].reasoning.content
  }

  /** The texts that a tool call ended, one for each call. */
  function Segments(events: seq<Event>): seq<string> {
    if events == [] then []
    else
      var front := events[..|events| - 1];
      Segments(front) + if events[|events| - 1].ToolCompleted? then [TailText(front)] else []
  }

  function Joined(parts: seq<string>): string {
    if parts == [] then "" else Joined(parts[..|parts| - 1]) + parts[|parts| - 1]
  }

  function NotBlank(parts: seq<string>): seq<string> {
    if parts == [] then []
    else NotBlank(parts[..|parts| - 1]) + if IsBlank(parts[|parts| - 1]) then [] else [parts[|parts| - 1]]
  }

  /** What the history shows, in order, with the reasoning each entry carries. */
  datatype Piece = Said(text: string, reasoning: Reasoning) | Did(call: string, reasoning: Reasoning)

  function Transcript(entries: seq<Entry>): seq<Piece> {
    if entries == [] then []
    else
      Transcript(entries[..|entries| - 1])
      + match entries[|entries| - 1]
        case AssistantText(text, reasoning) => [Said(text, reasoning)]
        case Invocation(call, reasoning) => [Did(call, reasoning)]
  }

  /** What it should show of a pass up to its last tool call: each call after the text since the call
      before, if that is more than white space, and the reasoning since then, with its last signature,
      on the first of the two. */
  function Script(events: seq<Event>): seq<Piece> {
    if events == [] then []
    else
      var front, last := events[..|events| - 1], events[|events| - 1];
      Script(front)
      + if !last.ToolCompleted? then []
        else if IsBlank(TailText(front)) then [Did(last.call, TailReasoning(front))]
        else [Said(TailText(front), TailReasoning(front)), Did(last.call, Reasoning("", "", ""))]
  }

  function Invoked(entries: seq<Entry>): seq<string> {
    if entries == [] then []
    else
      var last := entries[|entries| - 1];
      Invoked(entries[..|entries| - 1]) + if last.Invocation? then [last.call] else []
  }

  lemma AddEntry(entries: seq<Entry>, e: Entry)
    ensures WrittenText(entries + [e]) == WrittenText(entries) + if e.AssistantText? then e.text else ""
    ensures WrittenReasoning(entries + [e]) == WrittenReasoning(entries) + e.reasoning.content
    ensures Invoked(entries + [e]) == Invoked(entries) + if e.Invocation? then [e.call] else []
    ensures Transcript(entries + [e])
         == Transcript(entries)
            + [if e.AssistantText? then Said(e.text, e.reasoning) else Did(e.call, e.reasoning)]
  {
    assert (entries + [e])[..|entries|] == entries;
  }

  lemma AddPart(parts: seq<string>, part: string)
    ensures Joined(parts + [part]) == Joined(parts) + part
    ensures NotBlank(parts + [part]) == if IsBlank(part) then NotBlank(parts) else NotBlank(parts) + [part]
  {
    assert (parts + [part])[..|parts|] == parts;
  }

  lemma WithToolWrites(p: Pass, call: string)
    ensures var q := WithTool(p, call);
            && WrittenReasoning(q.entries) == WrittenReasoning(p.entries) + p.reasoning.content
            && WrittenText(q.entries) == WrittenText(p.entries) + (if IsBlank(p.text) then "" else p.text)
            && Invoked(q.entries) == Invoked(p.entries) + [call]
            && Transcript(q.entries) == Transcript(p.entries)
                 + if IsBlank(p.text) then [Did(call, p.reasoning)]
                   else [Said(p.text, p.reasoning), Did(call, Nothing)]
  {
    if IsBlank(p.text) {
      AddEntry(p.entries, Invocation(call, p.reasoning));
    } else {
      var text := AssistantText(p.text, p.reasoning);
      AddEntry(p.entries, text);
      AddEntry(p.entries + [text], Invocation(call, Nothing));
      assert p.entries + [text, Invocation(call, Nothing)] == (p.entries + [text]) + [Invocation(call, Nothing)];
    }
  }

  lemma {:induction false} PendingIsTail(events: seq<Event>)
    ensures var p := ApplyAll(events);
            p.text == TailText(events) && p.reasoning == TailReasoning(events) && p.tools == |Calls(events)|
  {
    if events != [] { PendingIsTail(events[..|events| - 1]); }
  }

  /** The history shows the script of the events, and is made of the text segments that are more than
      white space, byte for byte, of all reasoning but what is pending, and of every call. */
  ghost predicate Follows(p: Pass, events: seq<Event>) {
    && Transcript(p.entries) == Script(events)
    && WrittenText(p.entries) == Joined(NotBlank(Segments(events)))
    && WrittenReasoning(p.entries) + TailThinking(events) == ThinkingOf(events)
    && Invoked(p.entries) == Calls(events)
  }

  /** One more tool call: what was pending in `p` is the last segment. */
  lemma CallFollows(front: seq<Event>, call: string, p: Pass)
    requires Follows(p, front) && p.text == TailText(front) && p.reasoning == TailReasoning(front)
    ensures Follows(WithTool(p, call), front + [ToolCompleted(call)])
  {
    var events := front + [ToolCompleted(call)];
    assert events[..|events| - 1] == front;
    WithToolWrites(p, call);
    AddPart(Segments(front), TailText(front));
    AddPart(NotBlank(Segments(front)), TailText(front));
    NoMore(WrittenText(p.entries));
    NoMore(WrittenReasoning(p.entries) + p.reasoning.content);
    NoMore(ThinkingOf(front));
  }

  lemma SameSegments(front: seq<Event>, e: Event)
    requires !e.ToolCompleted?
    ensures var events := front + [e];
            && Segments(events) == Segments(front) && Script(events) == Script(front) && Calls(events) == Calls(front)
            && TailThinking(events) == TailThinking(front) + Thought(e)
            && ThinkingOf(events) == ThinkingOf(front) + Thought(e)
  {
    assert (front + [e])[..|front|] == front;
  }

  lemma OtherFollows(front: seq<Event>, e: Event, p: Pass, q: Pass)
    requires Follows(p, front) && !e.ToolCompleted? && q.entries == p.entries
    ensures Follows(q, front + [e])
  {
    SameSegments(front, e);
    Regroup(WrittenReasoning(p.entries), TailThinking(front), Thought(e));
  }

  lemma StepFollows(front: seq<Event>, e: Event, p: Pass)
    requires Follows(p, front) && p.text == TailText(front) && p.reasoning == TailReasoning(front)
    ensures Follows(Apply(p, e), front + [e])
  {
    if e.ToolCompleted? {
      CallFollows(front, e.call, p);
    } else {
      OtherFollows(front, e, p, Apply(p, e));
    }
  }

  /** At every point of a pass the history follows the script. */
  lemma {:induction false} HistoryFollowsScript(events: seq<Event>)
    ensures Follows(ApplyAll(events), events)
  {
    if events == [] {
      assert ApplyAll(events) == Begin;
    } else {
      var front, last := events[..|events| - 1], events[|events| - 1];
      assert events == front + [last];
      HistoryFollowsScript(front);
      PendingIsTail(front);
      FollowsOneMore(front, last, ApplyAll(front), events, ApplyAll(events));
    }
  }

  lemma FollowsOneMore(front: seq<Event>, e: Event, p: Pass, events: seq<Event>, q: Pass)
    requires Follows(p, front) && p.text == TailText(front) && p.reasoning == TailReasoning(front)
    requires q == Apply(p, e) && events == front + [e]
    ensures Follows(q, events)
  {
    StepFollows(front, e, p);
  }

  lemma NoMore(s: string)
    ensures s + "" == s
  {
  }

  lemma Regroup(a: string, b: string, c: string)
    ensures a + (b + c) == a + b + c
  {
  }

  /** The text received is the segments and what follows the last call. */
  lemma {:induction false} TextIsSegmented(events: seq<Event>)
    ensures TextOf(events) == Joined(Segments(events)) + TailText(events)
  {
    if events != [] {
      var front, last := events[..|events| - 1], events[|events| - 1];
      TextIsSegmented(front);
      if last.ToolCompleted? {
        assert Segments(events) == Segments(front) + [TailText(front)];
        AddPart(Segments(front), TailText(front));
        NoMore(TextOf(front));
        NoMore(Joined(Segments(events)));
      } else {
        assert Segments(events) == Segments(front);
        Regroup(Joined(Segments(front)), TailText(front), Heard(last));
      }
    }
  }

  /** A whole pass: its script, and one more entry for what follows the last call if that is worth one.
      The written text is, byte for byte, the segments before tool calls that are more than white space
      and that last text. */
  lemma TextIsConserved(events: seq<Event>)
    ensures var p := ApplyAll(events);
            && Transcript(Finish(p).entries)
                 == Script(events)
                    + (if EndsInEntry(events) then [Said(TailText(events), TailReasoning(events))] else [])
            && WrittenText(Finish(p).entries)
                 == Joined(NotBlank(Segments(events))) + (if EndsInEntry(events) then TailText(events) else "")
            && Invoked(Finish(p).entries) == Calls(events)
  {
    var p := ApplyAll(events);
    HistoryFollowsScript(events);
    PendingIsTail(events);
    AddEntry(p.entries, AssistantText(p.text, p.reasoning));
  }

  lemma ShorterOrSame(a: string, b: string, c: string)
    ensures a + c == b + c <==> a == b
  {
    if a + c == b + c {
      assert |a| == |b|;
      assert (a + c)[..|a|] == a && (b + c)[..|b|] == b;
    }
  }

  lemma {:induction false} DroppingBlanksIsExactIff(parts: seq<string>)
    ensures |Joined(NotBlank(parts))| <= |Joined(parts)|
    ensures Joined(NotBlank(parts)) == Joined(parts) <==> forall part :: part in parts && IsBlank(part) ==> part == ""
    ensures Joined(NotBlank(parts)) != Joined(parts) ==> |Joined(NotBlank(parts))| < |Joined(parts)|
  {
    if parts != [] {
      var front, last := parts[..|parts| - 1], parts[|parts| - 1];
      DroppingBlanksIsExactIff(front);
      assert parts == front + [last];
      AddPart(front, last);
      AddPart(NotBlank(front), last);
      var kept := Joined(NotBlank(front));
      assert Joined(NotBlank(parts)) == if IsBlank(last) then kept else kept + last;
      ShorterOrSame(kept, Joined(front), last);
      assert forall part :: part in parts <==> part in front || part == last;
    }
  }

  /** The written text is all the text received exactly if no white space stands alone before a tool call
      or behind the last one. */
  lemma TextIsCompleteIff(events: seq<Event>)
    ensures var p := ApplyAll(events);
            WrittenText(Finish(p).entries) == TextOf(events)
            <==> (forall segment :: segment in Segments(events) && IsBlank(segment) ==> segment == "")
                 && (TailText(events) == "" || EndsInEntry(events))
  {
    TextIsConserved(events);
    TextIsSegmented(events);
    DroppingBlanksIsExactIff(Segments(events));
  }

  /** The reasoning of a pass is conserved exactly when what follows the last tool call gives an
      entry of its own, or no reasoning follows it. */
  lemma ReasoningIsConservedIff(events: seq<Event>)
    ensures var p := ApplyAll(events);
            WrittenReasoning(Finish(p).entries) == ThinkingOf(events)
            <==> (TailThinking(events) == "" || EndsInEntry(events))
  {
    var p := ApplyAll(events);
    HistoryFollowsScript(events);
    PendingIsTail(events);
    AddEntry(p.entries, AssistantText(p.text, p.reasoning));
    if !Flushes(p.text, p.reasoning, p.tools == 0) {
      assert |WrittenReasoning(p.entries)| + |TailThinking(events)| == |ThinkingOf(events)|;
      assert TailThinking(events) == "" ==> WrittenReasoning(p.entries) + "" == WrittenReasoning(p.entries);
    }
  }

  /** Reasoning after a tool call with no text behind it is dropped. */
  lemma TrailingReasoningIsDropped()
    ensures var events := [ToolCompleted("t"), ThinkingDelta("why")];
            ThinkingOf(events) == "why" && WrittenReasoning(Finish(ApplyAll(events)).entries) == ""
  {
    var events := [ToolCompleted("t"), ThinkingDelta("why")];
    assert events[..1] == [ToolCompleted("t")] && events[..1][..0] == [];
    assert ApplyAll(events[..1]) == WithTool(Begin, "t");
    assert Begin.entries + [Invocation("t", Nothing)] == [Invocation("t", Nothing)];
    AddEntry([], Invocation("t", Nothing));
    assert [] + [Invocation("t", Nothing)] == [Invocation("t", Nothing)];
    assert ApplyAll(events).entries == [Invocation("t", Nothing)];
    assert ThinkingOf(events[..1]) == "";
  }
}
