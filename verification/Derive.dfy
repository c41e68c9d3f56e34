/**
 The write-time turn derivation (internal/agentturns/derive.go): one request's
 event rows, from its own body, its predecessor's body, and the two baselines
 read off the rows already stored.
 */
module Derive {
  import opened Wrappers
  import opened Json
  import opened Classify
  import opened Replay

  const SUPPLEMENT_SEQ_BASE := 1024
  const PENDING_SEQ := 2048

  datatype OwnBody = OwnBody(body: RequestBody, hasInlineReply: bool, hasStreamCapture: bool)

  datatype PrevBody = PrevBody(body: RequestBody, hasInlineReply: bool)

  /** The last recorded system value and the ordinal the next change takes. */
  datatype SystemBaseline = SystemBaseline(raw: Option<Json>, nextOrdinal: nat)

  /** A row's payload; storing and reading it back is the identity. */
  datatype Content =
    | SystemContent(ordinal: nat, raw: Json)
    | ElementContent(element: Json)
    | ReplyContent(source: Source, copies: seq<Json>)
    | NoContent

  datatype TurnEvent = TurnEvent(seqNo: nat, eventType: EventType, content: Content, forPrev: bool)

  // ----- Specification -----

  datatype Payload = Payload(eventType: EventType, content: Content)

  /** Consecutively numbered events. */
  function Numbered(base: nat, ps: seq<Payload>, forPrev: bool): (es: seq<TurnEvent>)
    ensures |es| == |ps|
    ensures forall i :: 0 <= i < |ps| ==> es[i] == TurnEvent(base + i, ps[i].eventType, ps[i].content, forPrev)
  {
    seq(|ps|, i requires 0 <= i < |ps| => TurnEvent(base + i, ps[i].eventType, ps[i].content, forPrev))
  }

  function SystemPayloads(baseline: SystemBaseline, system: Option<Json>): seq<Payload> {
    if system.Some? && system != baseline.raw
    then [Payload(SystemPrompt, SystemContent(baseline.nextOrdinal, system.value))]
    else []
  }

  function ElementPayloads(els: seq<Json>): seq<Payload> {
    if els == [] then []
    else ElementPayloads(els[..|els| - 1]) + [Payload(Class(els[|els| - 1]), ElementContent(els[|els| - 1]))]
  }

  function ToolCallPayloads(copies: seq<Json>): seq<Payload> {
    if copies == [] then []
    else
      var last := copies[|copies| - 1];
      ToolCallPayloads(copies[..|copies| - 1])
      + if CarriesToolUse(last) then [Payload(ToolCall, ElementContent(last))] else []
  }

  function OwnSource(own: OwnBody): Source {
    if own.hasInlineReply then Inline else if own.hasStreamCapture then Stream else Unrecorded
  }

  /** The request's own batch: the system change, the kept elements, the reply marker. */
  function OwnPayloads(c: Contribution, baseline: SystemBaseline, fold: FoldState, source: Source): seq<Payload> {
    SystemPayloads(baseline, c.system) + ElementPayloads(Kept(fold, c.elements))
    + [Payload(AssistantReply, ReplyContent(source, []))]
  }

  /** The rows a request appends for its predecessor when that one's reply was not recorded inline. */
  function SupplementPayloads(copies: seq<Json>, hasPrev: bool, prevInline: bool): seq<Payload> {
    if !hasPrev || prevInline || copies == [] then []
    else [Payload(AssistantReply, ReplyContent(Resend, copies))] + ToolCallPayloads(copies)
  }

  function Events(c: Contribution, baseline: SystemBaseline, fold: FoldState, source: Source,
                  hasPrev: bool, prevInline: bool): seq<TurnEvent>
  {
    Numbered(0, OwnPayloads(c, baseline, fold, source), false)
    + Numbered(SUPPLEMENT_SEQ_BASE, SupplementPayloads(c.copies, hasPrev, prevInline), true)
  }

  predicate IsCapped(body: RequestBody) {
    body.length > MAX_INLINE_BODY_BYTES
  }

  /** What a request brings over its predecessor, as the write path sees the two bodies. */
  function Brings(own: OwnBody, prev: Option<PrevBody>): Contribution {
    Contribute(if prev.None? then [] else Parse(prev.value.body, IsCapped(prev.value.body)).messages,
               Parse(own.body, IsCapped(own.body)))
  }

  function Derived(own: OwnBody, prev: Option<PrevBody>, baseline: SystemBaseline, fold: FoldState): seq<TurnEvent> {
    Events(Brings(own, prev), baseline, fold, OwnSource(own), prev.Some?, prev.Some? && prev.value.hasInlineReply)
  }

  // ----- The derivation -----

  lemma NumberedOneMore(base: nat, ps: seq<Payload>, p: Payload, forPrev: bool)
    ensures Numbered(base, ps + [p], forPrev)
         == Numbered(base, ps, forPrev) + [TurnEvent(base + |ps|, p.eventType, p.content, forPrev)]
  {
  }

  lemma {:induction false} ElementPayloadsLength(els: seq<Json>)
    ensures |ElementPayloads(els)| == |els|
  {
    if els != [] {
      ElementPayloadsLength(els[..|els| - 1]);
    }
  }

  /** One event per element that survives the fold, numbered on from the events before. */
  method AppendElements(els: seq<Json>, folder: UserInputFolder, events: seq<TurnEvent>, seqNo: nat,
                        ghost before: seq<Payload>)
    returns (out: seq<TurnEvent>, next: nat)
    requires seqNo == |before| && events == Numbered(0, before, false)
    modifies folder
    ensures folder.State() == After(old(folder.State()), els)
    ensures out == Numbered(0, before + ElementPayloads(Kept(old(folder.State()), els)), false)
    ensures next == |out|
  {
    hide Keeps, Next, Class, Numbered;
    out, next := events, seqNo;
    ghost var start, kept, all := folder.State(), [], before;
    assert before + [] == before;
    for j := 0 to |els|
      invariant folder.State() == After(start, els[..j])
      invariant kept == Kept(start, els[..j])
      invariant all == before + ElementPayloads(kept)
      invariant out == Numbered(0, all, false)
      invariant next == |out| == |all|
    {
      assert els[..j + 1][..j] == els[..j];
      var keep := folder.Keep(els[j]);
      if !keep {
        continue;
      }
      var ty := ClassifyAddedMessage(els[j]);
      ghost var p := Payload(ty, ElementContent(els[j]));
      assert (kept + [els[j]])[..|kept|] == kept;
      NumberedOneMore(0, all, p, false);
      assert all + [p] == before + (ElementPayloads(kept) + [p]);
      kept, all := kept + [els[j]], all + [p];
      out := out + [TurnEvent(next, ty, ElementContent(els[j]), false)];
      next := next + 1;
    }
    assert els[..|els|] == els;
  }

  lemma CopiesOfOneMore(ms: seq<Json>, m: Json)
    ensures OfRole(ms + [m], "assistant") == OfRole(ms, "assistant") + if RoleOf(m) == "assistant" then [m] else []
  {
    assert (ms + [m])[..|ms|] == ms;
  }

  lemma {:induction false} ElementPayloadsOfConcat(a: seq<Json>, b: seq<Json>)
    ensures ElementPayloads(a + b) == ElementPayloads(a) + ElementPayloads(b)
  {
    if b == [] {
      assert a + b == a;
    } else {
      assert (a + b)[..|a + b| - 1] == a + b[..|b| - 1];
      ElementPayloadsOfConcat(a, b[..|b| - 1]);
    }
  }

  /** The own batch's element events, and the assistant copies passed on the way. */
  method AppendSuffix(suffix: seq<Json>, fold: FoldState, events: seq<TurnEvent>, ghost before: seq<Payload>)
    returns (out: seq<TurnEvent>, copies: seq<Json>)
    requires events == Numbered(0, before, false)
    ensures out == Numbered(0, before + ElementPayloads(Kept(fold, Elements(suffix))), false)
    ensures copies == OfRole(suffix, "assistant")
  {
    hide Class, Split, Kept, After, Numbered;
    var folder := new UserInputFolder(fold);
    var seqNo := |events|;
    out, copies := events, [];
    ghost var els, kept := [], [];
    assert Kept(fold, els) == kept && After(fold, els) == fold by {
      FoldOfNothing(fold);
    }
    assert before + [] == before;
    for i := 0 to |suffix|
      invariant fresh(folder)
      invariant copies == OfRole(suffix[..i], "assistant")
      invariant els == Elements(suffix[..i]) && kept == Kept(fold, els) && folder.State() == After(fold, els)
      invariant out == Numbered(0, before + ElementPayloads(kept), false)
      invariant seqNo == |out|
    {
      assert suffix[..i + 1] == suffix[..i] + [suffix[i]];
      ElementsOfOneMore(suffix[..i], suffix[i]);
      CopiesOfOneMore(suffix[..i], suffix[i]);
      var role := RoleOf(suffix[i]);
      if role == "assistant" {
        copies := copies + [suffix[i]];
        continue;
      }
      if role == "system" {
        continue;
      }
      var more := SplitUserMessageForAdded(suffix[i]);
      ghost var sofar, extra := before + ElementPayloads(kept), Kept(After(fold, els), more);
      FoldOfConcat(fold, els, more);
      ElementPayloadsOfConcat(kept, extra);
      out, seqNo := AppendElements(more, folder, out, seqNo, sofar);
      assert sofar + ElementPayloads(extra) == before + (ElementPayloads(kept) + ElementPayloads(extra));
      els, kept := els + more, kept + extra;
    }
    assert suffix[..|suffix|] == suffix;
  }

  lemma FoldOfNothing(f: FoldState)
    ensures Kept(f, []) == [] && After(f, []) == f
  {
  }

  /** The resend attribution and one tool_call row per copy that carries a tool use. */
  method SupplementEvents(copies: seq<Json>) returns (events: seq<TurnEvent>)
    requires copies != []
    ensures events == Numbered(SUPPLEMENT_SEQ_BASE, SupplementPayloads(copies, true, false), true)
  {
    hide CarriesToolUse;
    var supSeq := SUPPLEMENT_SEQ_BASE;
    events := [TurnEvent(supSeq, AssistantReply, ReplyContent(Resend, copies), true)];
    supSeq := supSeq + 1;
    ghost var ps := [Payload(AssistantReply, ReplyContent(Resend, copies))];
    for i := 0 to |copies|
      invariant ps == [Payload(AssistantReply, ReplyContent(Resend, copies))] + ToolCallPayloads(copies[..i])
      invariant events == Numbered(SUPPLEMENT_SEQ_BASE, ps, true)
      invariant supSeq == SUPPLEMENT_SEQ_BASE + |ps|
    {
      assert copies[..i + 1][..i] == copies[..i];
      if CarriesToolUse(copies[i]) {
        NumberedOneMore(SUPPLEMENT_SEQ_BASE, ps, Payload(ToolCall, ElementContent(copies[i])), true);
        events := events + [TurnEvent(supSeq, ToolCall, ElementContent(copies[i]), true)];
        supSeq := supSeq + 1;
        ps := ps + [Payload(ToolCall, ElementContent(copies[i]))];
      }
    }
    assert copies[..|copies|] == copies;
  }

  method DeriveTurnEvents(own: OwnBody, prev: Option<PrevBody>, baseline: SystemBaseline, userBase: FoldState)
    returns (events: seq<TurnEvent>)
    ensures events == Derived(own, prev, baseline, userBase)
  {
    hide Parse, PrefixFrom, Elements, OfRole, Kept, ElementPayloads, ToolCallPayloads, Numbered;
    var now := ParseReplayBody(own.body, own.body.length > MAX_INLINE_BODY_BYTES);
    var prevMessages := [];
    if prev.Some? {
      var p := ParseReplayBody(prev.value.body, prev.value.body.length > MAX_INLINE_BODY_BYTES);
      prevMessages := p.messages;
    }
    var n := CommonStructPrefixLen(prevMessages, now.messages);
    var suffix := now.messages[n..];
    ghost var c := Brings(own, prev);

    events := [];
    ghost var ps := SystemPayloads(baseline, c.system);
    if now.system.Some? && (baseline.raw.None? || baseline.raw.value != now.system.value) {
      events := events + [TurnEvent(0, SystemPrompt, SystemContent(baseline.nextOrdinal, now.system.value), false)];
    }
    assert events == Numbered(0, ps, false);
    var copies;
    events, copies := AppendSuffix(suffix, userBase, events, ps);
    ps := ps + ElementPayloads(Kept(userBase, c.elements));

    var source := if own.hasInlineReply then Inline else if own.hasStreamCapture then Stream else Unrecorded;
    NumberedOneMore(0, ps, Payload(AssistantReply, ReplyContent(source, [])), false);
    events := events + [TurnEvent(|events|, AssistantReply, ReplyContent(source, []), false)];

    if prev.Some? && !prev.value.hasInlineReply && |copies| > 0 {
      var supplement := SupplementEvents(copies);
      events := events + supplement;
    } else {
      assert Numbered(SUPPLEMENT_SEQ_BASE, [], true) == [];
    }
  }
}
