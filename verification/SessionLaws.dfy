/**
 What a replayed session shows, read off the captured bodies: which messages and
 which system value a body holds, what each request adds to the session, and whose
 reply each block carries.
 */
module SessionLaws {
  import opened Wrappers
  import opened Json
  import opened Classify
  import opened Replay
  import opened Gaps

  // ----- One body -----

  predicate IsReadable(body: RequestBody, truncated: bool) {
    !truncated && body.length > 0 && body.top.Some?
  }

  /** The body's messages: its array of that name, if it has one. */
  predicate HoldsMessages(top: map<string, Json>, ms: seq<Json>) {
    if "messages" in top && top["messages"].Arr? then ms == top["messages"].items else ms == []
  }

  predicate IsSystem(m: Json) {
    m.Obj? && "role" in m.fields && m.fields["role"] == Str("system")
  }

  predicate IsAssistant(m: Json) {
    m.Obj? && "role" in m.fields && m.fields["role"] == Str("assistant")
  }

  /** `v` is the body's system value: the top-level one, or else its system messages, all of them and in order. */
  ghost predicate HoldsSystem(top: map<string, Json>, ms: seq<Json>, v: Json) {
    if "system" in top && top["system"] != Null then v == top["system"]
    else v.Arr? && v.items != [] && IsFilter(v.items, ms, IsSystem)
  }

  /** The body brings a system value of either kind. */
  predicate NamesSystem(top: map<string, Json>, ms: seq<Json>) {
    ("system" in top && top["system"] != Null) || exists m :: m in ms && IsSystem(m)
  }

  lemma {:induction false} RoleIsAFilter(ms: seq<Json>, role: string, keep: Json -> bool)
    requires forall m :: keep(m) <==> RoleOf(m) == role
    ensures IsFilter(OfRole(ms, role), ms, keep)
  {
    hide IsFilter;
    if ms == [] {
      NothingFiltered(keep);
    } else {
      var init, last := ms[..|ms| - 1], ms[|ms| - 1];
      RoleIsAFilter(init, role, keep);
      FilterOneMore(OfRole(init, role), init, last, keep);
      assert ms == init + [last];
    }
  }

  /** What is read from a body: everything it holds of the two halves, and nothing of a cut or unreadable one. */
  lemma BodyIsReadWhole(body: RequestBody, truncated: bool)
    ensures (var p := Parse(body, truncated);
             if !IsReadable(body, truncated) then p.messages == [] && p.system.None?
             else
               && HoldsMessages(body.top.value, p.messages)
               && (p.system.Some? <==> NamesSystem(body.top.value, p.messages))
               && (p.system.Some? ==> HoldsSystem(body.top.value, p.messages, p.system.value)))
  {
    hide IsFilter, OfRole;
    if IsReadable(body, truncated) {
      var ms := Parse(body, truncated).messages;
      RoleIsAFilter(ms, "system", IsSystem);
      FilterIsEmpty(OfRole(ms, "system"), ms, IsSystem);
    }
  }

  // ----- The system value in effect -----

  /**
   A request that brings a system value shows that value on its block; one that
   brings none shows what the block before it shows, the first one nothing.
   */
  lemma BlockShowsTheValueInEffect(inputs: seq<ReplayInput>, i: nat)
    requires i < |inputs|
    ensures (var ts, v := Turns(inputs), ParsedAt(inputs, i).system;
             var shown := BlockAt(ts, i).system;
             && (v.Some? ==> shown.Some? && shown.value.raw == v.value)
             && (v.None? ==> shown == if i == 0 then None else BlockAt(ts, i - 1).system)
             && (v.Some? && i > 0 && BlockAt(ts, i - 1).system.Some? && BlockAt(ts, i - 1).system.value.raw == v.value
                 ==> shown == BlockAt(ts, i - 1).system)
             && (v.Some? && (i == 0 || BlockAt(ts, i - 1).system.None? || BlockAt(ts, i - 1).system.value.raw != v.value)
                 ==> shown == Some(SystemEntry(inputs[i].requestID, inputs[i].bodyTruncated, v.value))))
  {
    hide Parse, Elements, OfRole, PrefixFrom, Attribute, AddedAt;
    var ts := Turns(inputs);
    assert ts[i] == TurnAt(inputs, i);
    assert Timeline(ts, 0) == [];
  }

  /** A session with a readable request that names a system value, of either kind, has a timeline, and the block shows the value. */
  lemma {:induction false} NamedSystemShows(inputs: seq<ReplayInput>, i: nat)
    requires i < |inputs| && IsReadable(inputs[i].body, inputs[i].bodyTruncated)
    requires NamesSystem(inputs[i].body.top.value, ParsedAt(inputs, i).messages)
    ensures Timeline(Turns(inputs), |inputs|) != []
    ensures (var shown := BlockAt(Turns(inputs), i).system;
             shown.Some? && HoldsSystem(inputs[i].body.top.value, ParsedAt(inputs, i).messages, shown.value.raw))
  {
    hide Parse, Turns, Timeline, HoldsSystem, NamesSystem, HoldsMessages, AddedAt, Attribute;
    BodyIsReadWhole(inputs[i].body, inputs[i].bodyTruncated);
    BlockShowsTheValueInEffect(inputs, i);
    TimelineGrows(Turns(inputs), i + 1, |inputs|);
  }

  // ----- What the requests add -----

  predicate IsCallers(m: Json) {
    !IsAssistant(m) && !IsSystem(m)
  }

  lemma {:induction false} ElementsOfConcat(a: seq<Json>, b: seq<Json>)
    ensures Elements(a + b) == Elements(a) + Elements(b)
  {
    hide Split;
    if b == [] {
      assert a + b == a;
    } else {
      assert (a + b)[..|a + b| - 1] == a + b[..|b| - 1];
      ElementsOfConcat(a, b[..|b| - 1]);
    }
  }

  /** Message after message, the elements are the parts of the caller's own messages; the others give none. */
  lemma ElementsMessageByMessage(ms: seq<Json>, i: nat)
    requires i < |ms|
    ensures Elements(ms) == Elements(ms[..i]) + (if IsCallers(ms[i]) then Split(ms[i]) else []) + Elements(ms[i + 1..])
  {
    hide Split;
    assert ms == ms[..i] + [ms[i]] + ms[i + 1..];
    ElementsOfConcat(ms[..i] + [ms[i]], ms[i + 1..]);
    ElementsOfOneMore(ms[..i], ms[i]);
  }

  lemma PartsAreTheCallers(m: Json)
    requires IsCallers(m)
    ensures forall el :: el in Split(m) ==> IsCallers(el)
  {
    hide LeadsWithMarker, Wrapped, Blocks, HasToolResult, IsCallers;
    if Split(m) != [m] {
      var blocks := Field(m, "content").items;
      var injected := Blocks(blocks, true);
      WrappedIsFlat(injected);
      forall el | el in Split(m) ensures IsCallers(el) {
        UserMessageIsCallers(Blocks(blocks, false));
        if el in Wrapped(injected) {
          var i :| 0 <= i < |injected| && Wrapped(injected)[i] == el;
          WrappedAt(injected, i);
          UserMessageIsCallers([injected[i]]);
        }
      }
    }
  }

  lemma UserMessageIsCallers(blocks: seq<Json>)
    ensures IsCallers(UserMessage(blocks))
  {
  }

  lemma WrappedIsFlat(blocks: seq<Json>)
    ensures |Wrapped(blocks)| == |blocks|
  {
    if blocks != [] {
      WrappedAt(blocks, 0);
    }
  }

  lemma {:induction false} NoReplyAmongElements(ms: seq<Json>)
    ensures forall el :: el in Elements(ms) ==> IsCallers(el)
  {
    hide Split;
    if ms != [] {
      NoReplyAmongElements(ms[..|ms| - 1]);
      if IsCallers(ms[|ms| - 1]) {
        PartsAreTheCallers(ms[|ms| - 1]);
      }
    }
  }

  /** What the first `n` turns bring, and what they add once duplicates are folded. */
  function Brought(ts: seq<Turn>, n: nat): seq<Json>
    requires n <= |ts|
  {
    if n == 0 then [] else Brought(ts, n - 1) + ts[n - 1].brings.elements
  }

  function Added(ts: seq<Turn>, n: nat): seq<Json>
    requires n <= |ts|
  {
    if n == 0 then [] else Added(ts, n - 1) + BlockAt(ts, n - 1).added
  }

  function Resent(ts: seq<Turn>, n: nat): seq<Json>
    requires n <= |ts|
  {
    if n == 0 then [] else Resent(ts, n - 1) + ts[n - 1].brings.copies
  }

  /** Block after block, a session adds what one fold over everything it brought keeps. */
  lemma {:induction false} SessionFoldsAsOne(ts: seq<Turn>, n: nat)
    requires n <= |ts|
    ensures Added(ts, n) == Kept(FRESH, Brought(ts, n)) && FoldAt(ts, n) == After(FRESH, Brought(ts, n))
  {
    hide Kept, After, Attribute, Timeline;
    if n > 0 {
      SessionFoldsAsOne(ts, n - 1);
      FoldOfConcat(FRESH, Brought(ts, n - 1), ts[n - 1].brings.elements);
      assert BlockAt(ts, n - 1).added == Kept(FoldAt(ts, n - 1), ts[n - 1].brings.elements);
    } else {
      FoldOfNothing();
    }
  }

  lemma FoldOfNothing()
    ensures Kept(FRESH, []) == [] && After(FRESH, []) == FRESH
  {
  }

  /** Each request resends all its predecessor sent, and goes on from there. */
  predicate AppendOnly(inputs: seq<ReplayInput>) {
    forall i :: 0 < i < |inputs| ==> ParsedAt(inputs, i - 1).messages <= ParsedAt(inputs, i).messages
  }

  lemma {:induction false} RolesOfConcat(a: seq<Json>, b: seq<Json>, role: string)
    ensures OfRole(a + b, role) == OfRole(a, role) + OfRole(b, role)
  {
    if b == [] {
      assert a + b == a;
    } else {
      assert (a + b)[..|a + b| - 1] == a + b[..|b| - 1];
      RolesOfConcat(a, b[..|b| - 1], role);
    }
  }

  lemma SuffixOfExtension(before: seq<Json>, now: seq<Json>)
    requires before <= now
    ensures before + NewSuffix(before, now) == now
  {
    hide PrefixFrom;
    PrefixIsLongestShared(before, now, |before|);
  }

  lemma SuffixOfNothing(now: seq<Json>)
    ensures NewSuffix([], now) == now
  {
    hide PrefixFrom;
  }

  /**
   In a session that only ever appends, the blocks up to request `n` together add
   what its body holds: the caller's messages split and folded once over, and the
   assistant messages as the copies the requests brought.
   */
  lemma {:induction false} AppendOnlySessionAddsItsLastBody(inputs: seq<ReplayInput>, n: nat)
    requires AppendOnly(inputs) && n < |inputs|
    ensures (var ts, ms := Turns(inputs), ParsedAt(inputs, n).messages;
             && Brought(ts, n + 1) == Elements(ms) && Resent(ts, n + 1) == OfRole(ms, "assistant")
             && Added(ts, n + 1) == Kept(FRESH, Elements(ms)))
  {
    hide Parse, Elements, OfRole, PrefixFrom, NewSuffix, Kept, After, Turns, Added;
    var ts, ms := Turns(inputs), ParsedAt(inputs, n).messages;
    assert ts[n] == TurnAt(inputs, n);
    if n > 0 {
      var before := ParsedAt(inputs, n - 1).messages;
      AppendOnlySessionAddsItsLastBody(inputs, n - 1);
      SuffixOfExtension(before, ms);
      ElementsOfConcat(before, NewSuffix(before, ms));
      RolesOfConcat(before, NewSuffix(before, ms), "assistant");
    } else {
      SuffixOfNothing(ms);
      assert Brought(ts, 0) == [] && Resent(ts, 0) == [];
      assert [] + ts[0].brings.elements == ts[0].brings.elements && [] + ts[0].brings.copies == ts[0].brings.copies;
    }
    SessionFoldsAsOne(ts, n + 1);
  }

  /** The elements the fold keeps: all but an input that repeats the words of the last one before it, kept or not. */
  lemma {:induction false} KeptAreTheNews(els: seq<Json>) returns (at: seq<nat>)
    ensures Picks(Kept(FRESH, els), at, els)
    ensures forall i, j :: 0 <= i < j < |at| ==> at[i] < at[j]
    ensures forall k: nat :: k < |els| ==>
              (k in at <==> !(Class(els[k]) == UserInput && Repeats(LastInput(els[..k]), els[k])))
  {
    hide Class, Repeats, LastInput, Kept, Keeps;
    at := [];
    if els == [] {
      FoldOfNothing();
    } else {
      var n := |els| - 1;
      var before := KeptAreTheNews(els[..n]);
      KeptOneMore(els);
      at := before + if Keeps(After(FRESH, els[..n]), els[n]) then [n] else [];
      FoldHoldsTheLastInput(FRESH, els[..n]);
      if Class(els[n]) == UserInput {
        KeepsUnlessRepeated(LastInput(els[..n]), els[n]);
      } else {
        OthersAreKept(After(FRESH, els[..n]), els[n]);
      }
      forall k: nat | k < |els|
        ensures k in at <==> !(Class(els[k]) == UserInput && Repeats(LastInput(els[..k]), els[k]))
      {
        if k < n {
          assert els[..n][..k] == els[..k] && els[..n][k] == els[k];
        }
      }
    }
  }

  lemma KeptOneMore(els: seq<Json>)
    requires els != []
    ensures (var n := |els| - 1;
             Kept(FRESH, els) == Kept(FRESH, els[..n]) + if Keeps(After(FRESH, els[..n]), els[n]) then [els[n]] else [])
  {
    hide Keeps;
  }

  // ----- Whose reply a block carries -----

  /** What request `i` newly sends. */
  function Suffix(inputs: seq<ReplayInput>, i: nat): seq<Json>
    requires i < |inputs|
  {
    NewSuffix(BaseAt(inputs, i), ParsedAt(inputs, i).messages)
  }

  /**
   Every assistant message a request newly sends is shown once or not at all: as its
   predecessor's reply when that one recorded neither a response nor a stream, and
   never among the added messages.
   */
  lemma RepliesShowOnce(inputs: seq<ReplayInput>, i: nat)
    requires i < |inputs|
    ensures (var reply, input := BlockAt(Turns(inputs), i).assistant, inputs[i];
             && (reply.source == Inline <==> input.response.text != "")
             && (reply.source == Stream <==> input.response.text == "" && input.stream.text != "")
             && (reply.source == Resend <==>
                   input.response.text == "" && input.stream.text == ""
                   && i + 1 < |inputs| && exists m :: m in Suffix(inputs, i + 1) && IsAssistant(m))
             && (reply.source == Inline ==> reply.raw == Text(input.response.text) && reply.truncated == input.response.truncated)
             && (reply.source == Stream ==> reply.raw == Text(input.stream.text) && reply.truncated == input.stream.truncated)
             && (reply.source == Resend ==> reply.raw.Copies? && IsFilter(reply.raw.copies, Suffix(inputs, i + 1), IsAssistant))
             && (reply.source == Unrecorded ==> reply.raw == NoRaw))
    ensures forall m :: m in BlockAt(Turns(inputs), i).added ==> IsCallers(m)
  {
    hide Parse, Elements, OfRole, PrefixFrom, Kept, Timeline, IsFilter, FoldAt;
    var ts := Turns(inputs);
    assert ts[i] == TurnAt(inputs, i);
    if i + 1 < |inputs| {
      assert ts[i + 1] == TurnAt(inputs, i + 1);
      var suffix := Suffix(inputs, i + 1);
      RoleIsAFilter(suffix, "assistant", IsAssistant);
      FilterIsEmpty(OfRole(suffix, "assistant"), suffix, IsAssistant);
    }
    NoReplyAmongElements(Suffix(inputs, i));
    KeptAreAmong(FoldAt(ts, i), ts[i].brings.elements);
  }

  lemma {:induction false} KeptAreAmong(f: FoldState, els: seq<Json>)
    ensures forall m :: m in Kept(f, els) ==> m in els
  {
    hide Keeps;
    if els != [] {
      KeptAreAmong(f, els[..|els| - 1]);
      assert els == els[..|els| - 1] + [els[|els| - 1]];
    }
  }

  /** The assistant messages a request newly sends are shown exactly when it has a predecessor that recorded no reply. */
  lemma CopiesShowExactlyWhen(inputs: seq<ReplayInput>, i: nat)
    requires i < |inputs| && exists m :: m in Suffix(inputs, i) && IsAssistant(m)
    ensures (i > 0 && inputs[i - 1].response.text == "" && inputs[i - 1].stream.text == "")
       <==> (i > 0 && BlockAt(Turns(inputs), i - 1).assistant.raw.Copies?
             && IsFilter(BlockAt(Turns(inputs), i - 1).assistant.raw.copies, Suffix(inputs, i), IsAssistant))
  {
    hide Suffix, Turns, IsFilter, BlockAt;
    if i > 0 {
      RepliesShowOnce(inputs, i - 1);
      SourcesAreFour(BlockAt(Turns(inputs), i - 1).assistant);
    }
  }

  lemma SourcesAreFour(a: Assistant)
    ensures a.source == Inline || a.source == Stream || a.source == Resend || a.source == Unrecorded
  {
  }

  /** So the assistant messages a session's first request already carries are shown nowhere. */
  lemma FirstHistoryIsNotShown(m: Json)
    requires IsAssistant(m)
    ensures (var top := map["messages" := Arr([m])];
             var inputs := [ReplayInput("a", RequestBody(1, Some(top)), false, Capture("", false), Capture("", false))];
             && Suffix(inputs, 0) == [m]
             && BlockAt(Turns(inputs), 0).added == [] && BlockAt(Turns(inputs), 0).assistant.raw == NoRaw)
  {
    hide Kept, OfRole;
    var top := map["messages" := Arr([m])];
    var inputs := [ReplayInput("a", RequestBody(1, Some(top)), false, Capture("", false), Capture("", false))];
    assert Parse(inputs[0].body, false).messages == [m];
    SuffixOfNothing([m]);
    RepliesShowOnce(inputs, 0);
    assert Turns(inputs)[0] == TurnAt(inputs, 0);
    assert [m][..0] == [] && Elements([m]) == [];
    FoldOfNothing();
  }
}
