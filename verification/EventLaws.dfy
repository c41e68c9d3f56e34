/**
 What one write stores, event by event: which message each input row holds and as
 what, which resent copies leave a tool_call row, and what the reply marker names.
 */
module EventLaws {
  import opened Wrappers
  import opened Json
  import opened Classify
  import opened Replay
  import opened Derive
  import opened Rows
  import opened TurnStore
  import opened Parity
  import opened SessionLaws

  predicate IsElement(ty: EventType) {
    ty == UserInput || ty == ToolResult || ty == Injected
  }

  /** The elements a list of payloads stores as inputs, in order. */
  function InputsAmong(ps: seq<Payload>): seq<Json> {
    if ps == [] then []
    else
      var last := ps[|ps| - 1];
      InputsAmong(ps[..|ps| - 1]) + if IsElement(last.eventType) && last.content.ElementContent? then [last.content.element] else []
  }

  /** The messages it stores as tool calls, in order. */
  function ToolCallsAmong(ps: seq<Payload>): seq<Json> {
    if ps == [] then []
    else
      var last := ps[|ps| - 1];
      ToolCallsAmong(ps[..|ps| - 1]) + if last.eventType == ToolCall && last.content.ElementContent? then [last.content.element] else []
  }

  predicate CallsATool(m: Json) {
    && Field(m, "content").Arr?
    && exists b :: b in Field(m, "content").items && TextOf(Field(b, "type")) == "tool_use"
  }

  lemma {:induction false} InputsOfConcat(a: seq<Payload>, b: seq<Payload>)
    ensures InputsAmong(a + b) == InputsAmong(a) + InputsAmong(b)
    ensures ToolCallsAmong(a + b) == ToolCallsAmong(a) + ToolCallsAmong(b)
  {
    if b == [] {
      assert a + b == a;
    } else {
      assert (a + b)[..|a + b| - 1] == a + b[..|b| - 1];
      InputsOfConcat(a, b[..|b| - 1]);
    }
  }

  lemma {:induction false} NoneAmong(ps: seq<Payload>)
    requires forall p :: p in ps ==> !IsElement(p.eventType) && p.eventType != ToolCall
    ensures InputsAmong(ps) == [] && ToolCallsAmong(ps) == []
  {
    if ps != [] {
      assert ps[|ps| - 1] in ps;
      NoneAmong(ps[..|ps| - 1]);
    }
  }

  /** Each element is stored as the type of message it is. */
  lemma {:induction false} ElementsAreStoredAsTheyAre(els: seq<Json>)
    ensures InputsAmong(ElementPayloads(els)) == els && ToolCallsAmong(ElementPayloads(els)) == []
    ensures forall p :: p in ElementPayloads(els) ==> p.content.ElementContent? && p.eventType == Class(p.content.element)
  {
    hide Class;
    if els != [] {
      var init, last := els[..|els| - 1], els[|els| - 1];
      ElementsAreStoredAsTheyAre(init);
      ClassIsInput(last);
      assert els == init + [last];
      assert ElementPayloads(els)[..|ElementPayloads(els)| - 1] == ElementPayloads(init);
    }
  }

  lemma {:induction false} ToolCallsAreTheCallingCopies(copies: seq<Json>)
    ensures IsFilter(ToolCallsAmong(ToolCallPayloads(copies)), copies, CallsATool)
    ensures InputsAmong(ToolCallPayloads(copies)) == []
  {
    hide IsFilter;
    if copies == [] {
      NothingFiltered<Json>(CallsATool);
    } else {
      var init, last := copies[..|copies| - 1], copies[|copies| - 1];
      ToolCallsAreTheCallingCopies(init);
      FilterOneMore(ToolCallsAmong(ToolCallPayloads(init)), init, last, CallsATool);
      assert copies == init + [last];
      assert CarriesToolUse(last) == CallsATool(last);
      var before := ToolCallPayloads(init);
      var made := if CarriesToolUse(last) then [Payload(ToolCall, ElementContent(last))] else [];
      assert ToolCallPayloads(copies) == before + made;
      InputsOfConcat(before, made);
      OneMayCall(last);
    }
  }

  lemma OneMayCall(m: Json)
    ensures (var made := if CarriesToolUse(m) then [Payload(ToolCall, ElementContent(m))] else [];
             ToolCallsAmong(made) == (if CallsATool(m) then [m] else []) && InputsAmong(made) == [])
  {
    var p := Payload(ToolCall, ElementContent(m));
    assert [p][..0] == [];
  }

  /** The payloads of a list of events. */
  function PayloadsOf(es: seq<TurnEvent>): (ps: seq<Payload>)
    ensures |ps| == |es| && forall i :: 0 <= i < |es| ==> ps[i] == Payload(es[i].eventType, es[i].content)
  {
    seq(|es|, i requires 0 <= i < |es| => Payload(es[i].eventType, es[i].content))
  }

  /** The write has a reply to hand back to its predecessor. */
  predicate Supplements(c: Contribution, prev: Option<PrevBody>) {
    prev.Some? && !prev.value.hasInlineReply && c.copies != []
  }

  /**
   What a write stores: under the request, the elements the fold keeps, each as the
   type of message it is; under its predecessor, if that one's reply was not
   recorded inline, the copies and one tool call for each copy that calls a tool.
   */
  lemma WriteStores(own: OwnBody, prev: Option<PrevBody>, baseline: SystemBaseline, fold: FoldState)
    ensures (var ps, c := PayloadsOf(Derived(own, prev, baseline, fold)), Brings(own, prev);
             && InputsAmong(ps) == Kept(fold, c.elements)
             && (forall p :: p in ps && IsElement(p.eventType) ==> p.content.ElementContent? && p.eventType == Class(p.content.element))
             && (Supplements(c, prev) ==> IsFilter(ToolCallsAmong(ps), c.copies, CallsATool))
             && (!Supplements(c, prev) ==> ToolCallsAmong(ps) == []))
  {
    hide Brings, Kept, ElementPayloads, ToolCallPayloads, Class, IsFilter, InputsAmong, ToolCallsAmong;
    var c := Brings(own, prev);
    var kept := Kept(fold, c.elements);
    var sys, els, reply := SystemPayloads(baseline, c.system), ElementPayloads(kept), [Payload(AssistantReply, ReplyContent(OwnSource(own), []))];
    var sup := SupplementPayloads(c.copies, prev.Some?, prev.Some? && prev.value.hasInlineReply);
    assert PayloadsOf(Derived(own, prev, baseline, fold)) == sys + els + reply + sup;
    ElementsAreStoredAsTheyAre(kept);
    NoneAmong(sys);
    NoneAmong(reply);
    InputsOfConcat(sys, els);
    InputsOfConcat(sys + els, reply);
    InputsOfConcat(sys + els + reply, sup);
    if Supplements(c, prev) {
      ToolCallsAreTheCallingCopies(c.copies);
      var head := [Payload(AssistantReply, ReplyContent(Resend, c.copies))];
      NoneAmong(head);
      InputsOfConcat(head, ToolCallPayloads(c.copies));
      forall p: Payload | p in ToolCallPayloads(c.copies) ensures p.eventType == ToolCall {
        ToolCallPayloadsAre(c.copies, p);
      }
      EmptyFront(ToolCallsAmong(ToolCallPayloads(c.copies)));
    } else {
      NoneAmong(sup);
    }
  }

  lemma EmptyFront(s: seq<Json>)
    ensures [] + s == s && [] + [] + [] + s == s
  {
  }

  /** The reply rows: one marker of the request's own, naming its source, and the copies handed to the predecessor. */
  lemma WriteMarksReplies(own: OwnBody, prev: Option<PrevBody>, baseline: SystemBaseline, fold: FoldState, e: TurnEvent)
    requires e in Derived(own, prev, baseline, fold) && e.eventType == AssistantReply
    ensures e.content
         == if e.forPrev then ReplyContent(Resend, Brings(own, prev).copies)
            else ReplyContent(if own.hasInlineReply then Inline else if own.hasStreamCapture then Stream else Unrecorded, [])
    ensures e.forPrev ==> Supplements(Brings(own, prev), prev) && e.seqNo == SUPPLEMENT_SEQ_BASE
  {
    hide Brings, Kept, ElementPayloads, ToolCallPayloads;
    var c := Brings(own, prev);
    var ps := OwnPayloads(c, baseline, fold, OwnSource(own));
    var sup := SupplementPayloads(c.copies, prev.Some?, prev.Some? && prev.value.hasInlineReply);
    var i :| 0 <= i < |Derived(own, prev, baseline, fold)| && Derived(own, prev, baseline, fold)[i] == e;
    if i < |ps| {
      assert ps[i] == Payload(AssistantReply, e.content);
      if ps[i] in ElementPayloads(Kept(fold, c.elements)) {
        ElementPayloadsAre(Kept(fold, c.elements), ps[i]);
      }
    } else {
      assert sup[i - |ps|] == Payload(AssistantReply, e.content);
      if i > |ps| {
        assert sup[i - |ps|] == ToolCallPayloads(c.copies)[i - |ps| - 1];
        ToolCallPayloadsAre(c.copies, sup[i - |ps|]);
      }
    }
  }

  /** The marker names the source the transcript reads the reply from, whenever it was captured and can still be read. */
  lemma MarkerNamesWhatIsRead(row: LogRow, turns: seq<TurnRow>)
    ensures ReadReply(turns, row).source == Inline <==> OwnSource(OwnOf(row)) == Inline
    ensures ReadReply(turns, row).source == Stream <==> OwnSource(OwnOf(row)) == Stream && row.streamFile.text != ""
  {
    hide SupplementReply;
  }

  /** The copies a write hands back are the assistant messages its body newly sends, all of them and in order. */
  lemma CopiesAreTheResentReplies(own: OwnBody, prev: Option<PrevBody>)
    ensures (var before := if prev.None? then [] else Parse(prev.value.body, IsCapped(prev.value.body)).messages;
             IsFilter(Brings(own, prev).copies, NewSuffix(before, Parse(own.body, IsCapped(own.body)).messages), IsAssistant))
  {
    hide IsFilter, OfRole, Parse, PrefixFrom, Elements;
    var before := if prev.None? then [] else Parse(prev.value.body, IsCapped(prev.value.body)).messages;
    RoleIsAFilter(NewSuffix(before, Parse(own.body, IsCapped(own.body)).messages), "assistant", IsAssistant);
  }

  /** A body longer than the inline limit brings nothing: its request is stored as its reply marker alone. */
  lemma OverlongBodyBringsNothing(own: OwnBody, prev: Option<PrevBody>, baseline: SystemBaseline, fold: FoldState)
    requires own.body.length > 0x10_0000
    ensures Brings(own, prev) == Contribution([], [], None)
    ensures |Derived(own, prev, baseline, fold)| == 1 && Derived(own, prev, baseline, fold)[0].eventType == AssistantReply
  {
    hide NewSuffix, Parse, Kept, Elements, OfRole;
    var before := if prev.None? then [] else Parse(prev.value.body, IsCapped(prev.value.body)).messages;
    assert Parse(own.body, IsCapped(own.body)) == UNREADABLE by { OverlongIsUnread(own.body); }
    NothingNew(before);
    assert Brings(own, prev) == Contribution([], [], None);
    hide Brings;
    NothingStored(fold);
  }

  lemma OverlongIsUnread(body: RequestBody)
    requires body.length > 0x10_0000
    ensures Parse(body, IsCapped(body)) == UNREADABLE
  {
  }

  lemma NothingNew(before: seq<Json>)
    ensures NewSuffix(before, []) == [] && Elements([]) == [] && OfRole([], "assistant") == []
  {
    hide PrefixFrom;
  }

  lemma NothingStored(fold: FoldState)
    ensures Kept(fold, []) == [] && ElementPayloads([]) == [] && ToolCallPayloads([]) == []
  {
  }
}
