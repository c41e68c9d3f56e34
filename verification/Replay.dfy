/**
 The whole-session replay pass (internal/agentturns/replay.go): one block per
 request and the deduplicated system timeline, computed from a session's
 requests in order. It is the specification the write-time derivation refines.
 */
module Replay {
  import opened Wrappers
  import opened Json
  import opened Classify

  const MAX_INLINE_BODY_BYTES := 1048576

  /**
   A captured request body: its byte length and what json.Unmarshal into an
   object makes of it (None for an unparseable text, the empty text included).
   */
  datatype RequestBody = RequestBody(length: nat, top: Option<map<string, Json>>)

  /** A captured reply text as a reader sees it, and whether it was cut. */
  datatype Capture = Capture(text: string, truncated: bool)

  datatype ReplayInput = ReplayInput(requestID: string, body: RequestBody, bodyTruncated: bool,
                                     response: Capture, stream: Capture)

  datatype Source = Inline | Stream | Resend | Unrecorded

  datatype ReplyRaw = NoRaw | Text(text: string) | Copies(copies: seq<Json>)

  datatype Assistant = Assistant(source: Source, truncated: bool, raw: ReplyRaw)

  datatype SystemEntry = SystemEntry(seenAt: string, truncated: bool, raw: Json)

  datatype Block = Block(requestID: string, added: seq<Json>, system: Option<SystemEntry>,
                         assistant: Assistant, addedTruncated: bool)

  // ----- Parsing -----

  datatype ParsedBody = ParsedBody(messages: seq<Json>, system: Option<Json>)

  const UNREADABLE := ParsedBody([], None)

  /** The messages of one role, in order. */
  function OfRole(ms: seq<Json>, role: string): seq<Json> {
    if ms == [] then []
    else OfRole(ms[..|ms| - 1], role) + if RoleOf(ms[|ms| - 1]) == role then [ms[|ms| - 1]] else []
  }

  function Parse(body: RequestBody, truncated: bool): ParsedBody {
    if truncated || body.length == 0 || body.top.None? then UNREADABLE
    else
      var top := Obj(body.top.value);
      var messages := if Field(top, "messages").Arr? then Field(top, "messages").items else [];
      var systemMsgs := OfRole(messages, "system");
      ParsedBody(messages,
                 if Field(top, "system") != Null then Some(Field(top, "system"))
                 else if systemMsgs != [] then Some(Arr(systemMsgs))
                 else None)
  }

  method ParseReplayBody(body: RequestBody, truncated: bool) returns (p: ParsedBody)
    ensures p == Parse(body, truncated)
  {
    if truncated || body.length == 0 || body.top.None? {
      return UNREADABLE;
    }
    var top := Obj(body.top.value);
    var messages := [];
    if Field(top, "messages").Arr? {
      messages := Field(top, "messages").items;
    }
    if Field(top, "system") != Null {
      return ParsedBody(messages, Some(Field(top, "system")));
    }
    var systemMsgs := [];
    for i := 0 to |messages|
      invariant systemMsgs == OfRole(messages[..i], "system")
    {
      assert messages[..i + 1][..i] == messages[..i];
      if RoleOf(messages[i]) == "system" {
        systemMsgs := systemMsgs + [messages[i]];
      }
    }
    assert messages[..|messages|] == messages;
    return ParsedBody(messages, if |systemMsgs| > 0 then Some(Arr(systemMsgs)) else None);
  }

  method ReplayAssistantMessages(suffix: seq<Json>) returns (out: seq<Json>)
    ensures out == OfRole(suffix, "assistant")
  {
    out := [];
    for i := 0 to |suffix|
      invariant out == OfRole(suffix[..i], "assistant")
    {
      assert suffix[..i + 1][..i] == suffix[..i];
      if RoleOf(suffix[i]) == "assistant" {
        out := out + [suffix[i]];
      }
    }
    assert suffix[..|suffix|] == suffix;
  }

  // ----- The structural prefix -----

  /** How far `a` and `b` agree from position `i` on. */
  function PrefixFrom(a: seq<Json>, b: seq<Json>, i: nat): (n: nat)
    requires i <= |a| && i <= |b|
    ensures i <= n <= |a| && n <= |b|
    decreases |a| - i
  {
    if i < |a| && i < |b| && a[i] == b[i] then PrefixFrom(a, b, i + 1) else i
  }

  function PrefixLen(a: seq<Json>, b: seq<Json>): (n: nat)
    ensures n <= |a| && n <= |b|
  {
    PrefixFrom(a, b, 0)
  }

  method CommonStructPrefixLen(a: seq<Json>, b: seq<Json>) returns (n: nat)
    ensures n == PrefixLen(a, b)
  {
    var m := if |b| < |a| then |b| else |a|;
    for i := 0 to m
      invariant PrefixLen(a, b) == PrefixFrom(a, b, i)
    {
      if a[i] != b[i] {
        return i;
      }
    }
    return m;
  }

  lemma {:induction false} PrefixFromAgrees(a: seq<Json>, b: seq<Json>, i: nat)
    requires i <= |a| && i <= |b| && a[..i] == b[..i]
    ensures var n := PrefixFrom(a, b, i);
            && a[..n] == b[..n]
            && (n < |a| && n < |b| ==> a[n] != b[n])
    decreases |a| - i
  {
    if i < |a| && i < |b| && a[i] == b[i] {
      assert a[..i + 1] == a[..i] + [a[i]];
      assert b[..i + 1] == b[..i] + [b[i]];
      PrefixFromAgrees(a, b, i + 1);
    }
  }

  /** The prefix is shared, and it is the longest one that is. */
  lemma PrefixIsLongestShared(a: seq<Json>, b: seq<Json>, k: nat)
    requires k <= |a| && k <= |b| && a[..k] == b[..k]
    ensures a[..PrefixLen(a, b)] == b[..PrefixLen(a, b)]
    ensures k <= PrefixLen(a, b)
  {
    PrefixFromAgrees(a, b, 0);
    forall j | 0 <= j < k ensures a[j] == b[j] {
      assert a[..k][j] == b[..k][j];
    }
  }

  // ----- What one request contributes -----

  /** The caller-side messages of a suffix, split into elements. */
  function Elements(ms: seq<Json>): seq<Json> {
    if ms == [] then []
    else
      var last := ms[|ms| - 1];
      Elements(ms[..|ms| - 1]) + if RoleOf(last) == "assistant" || RoleOf(last) == "system" then [] else Split(last)
  }

  /** `now` minus the longest prefix it shares with `before`. */
  function NewSuffix(before: seq<Json>, now: seq<Json>): seq<Json> {
    now[PrefixLen(before, now)..]
  }

  /** What one request newly brings: caller-side elements, resent assistant copies, a system value. */
  datatype Contribution = Contribution(elements: seq<Json>, copies: seq<Json>, system: Option<Json>)

  function OfSuffix(suffix: seq<Json>, system: Option<Json>): Contribution {
    Contribution(Elements(suffix), OfRole(suffix, "assistant"), system)
  }

  /** The contribution of a request with body `now`, sent after the messages `before`. */
  function Contribute(before: seq<Json>, now: ParsedBody): Contribution {
    OfSuffix(NewSuffix(before, now.messages), now.system)
  }

  function ParsedAt(inputs: seq<ReplayInput>, i: nat): ParsedBody
    requires i < |inputs|
  {
    Parse(inputs[i].body, inputs[i].bodyTruncated)
  }

  /** What the request before `i` had sent: nothing for the first one. */
  function BaseAt(inputs: seq<ReplayInput>, i: nat): seq<Json>
    requires i < |inputs|
  {
    if i == 0 then [] else ParsedAt(inputs, i - 1).messages
  }

  /** One request of a session, with what it brings over its predecessor. */
  datatype Turn = Turn(input: ReplayInput, brings: Contribution)

  function TurnAt(inputs: seq<ReplayInput>, i: nat): Turn
    requires i < |inputs|
  {
    Turn(inputs[i], Contribute(BaseAt(inputs, i), ParsedAt(inputs, i)))
  }

  function Turns(inputs: seq<ReplayInput>): (ts: seq<Turn>)
    ensures |ts| == |inputs|
    ensures forall i :: 0 <= i < |inputs| ==> ts[i] == TurnAt(inputs, i)
  {
    seq(|inputs|, i requires 0 <= i < |inputs| => TurnAt(inputs, i))
  }

  // ----- The replay of a sequence of turns -----

  /** The duplicate fold's state after the first `n` turns. */
  function FoldAt(ts: seq<Turn>, n: nat): FoldState
    requires n <= |ts|
  {
    if n == 0 then FRESH else After(FoldAt(ts, n - 1), ts[n - 1].brings.elements)
  }

  function AddedAt(ts: seq<Turn>, i: nat): seq<Json>
    requires i < |ts|
  {
    Kept(FoldAt(ts, i), ts[i].brings.elements)
  }

  /** Whether a system value is news after the timeline `t`. */
  predicate Changes(t: seq<SystemEntry>, system: Option<Json>) {
    system.Some? && (t == [] || t[|t| - 1].raw != system.value)
  }

  /** The system timeline after the first `n` turns. */
  function Timeline(ts: seq<Turn>, n: nat): seq<SystemEntry>
    requires n <= |ts|
  {
    if n == 0 then []
    else
      var t, turn := Timeline(ts, n - 1), ts[n - 1];
      if Changes(t, turn.brings.system)
      then t + [SystemEntry(turn.input.requestID, turn.input.bodyTruncated, turn.brings.system.value)]
      else t
  }

  function LastEntry(t: seq<SystemEntry>): Option<SystemEntry> {
    if t == [] then None else Some(t[|t| - 1])
  }

  /** The reply attribution, by priority; `copies` is what the next request resends. */
  function Attribute(response: Capture, stream: Capture, copies: seq<Json>): Assistant {
    if response.text != "" then Assistant(Inline, response.truncated, Text(response.text))
    else if stream.text != "" then Assistant(Stream, stream.truncated, Text(stream.text))
    else if copies != [] then Assistant(Resend, false, Copies(copies))
    else Assistant(Unrecorded, false, NoRaw)
  }

  function CopiesAt(ts: seq<Turn>, i: nat): seq<Json> {
    if i < |ts| then ts[i].brings.copies else []
  }

  function BlockAt(ts: seq<Turn>, i: nat): Block
    requires i < |ts|
  {
    var input := ts[i].input;
    Block(input.requestID, AddedAt(ts, i), LastEntry(Timeline(ts, i + 1)),
          Attribute(input.response, input.stream, CopiesAt(ts, i + 1)), input.bodyTruncated)
  }

  // ----- The pass -----

  method KeepElements(els: seq<Json>, folder: UserInputFolder) returns (kept: seq<Json>)
    modifies folder
    ensures kept == Kept(old(folder.State()), els)
    ensures folder.State() == After(old(folder.State()), els)
  {
    kept := [];
    ghost var start := folder.State();
    for j := 0 to |els|
      invariant kept == Kept(start, els[..j])
      invariant folder.State() == After(start, els[..j])
    {
      assert els[..j + 1][..j] == els[..j];
      var keep := folder.Keep(els[j]);
      if !keep {
        continue;
      }
      kept := kept + [els[j]];
    }
    assert els[..|els|] == els;
  }

  lemma ElementsOfOneMore(ms: seq<Json>, m: Json)
    ensures Elements(ms + [m])
         == Elements(ms) + if RoleOf(m) == "assistant" || RoleOf(m) == "system" then [] else Split(m)
  {
    assert (ms + [m])[..|ms|] == ms;
  }

  method CollectAdded(suffix: seq<Json>, folder: UserInputFolder) returns (added: seq<Json>)
    modifies folder
    ensures added == Kept(old(folder.State()), Elements(suffix))
    ensures folder.State() == After(old(folder.State()), Elements(suffix))
  {
    hide Class, Split;
    added := [];
    ghost var start, els := folder.State(), [];
    for i := 0 to |suffix|
      invariant els == Elements(suffix[..i])
      invariant added == Kept(start, els)
      invariant folder.State() == After(start, els)
    {
      assert suffix[..i + 1] == suffix[..i] + [suffix[i]];
      ElementsOfOneMore(suffix[..i], suffix[i]);
      var role := RoleOf(suffix[i]);
      if role != "assistant" && role != "system" {
        var more := SplitUserMessageForAdded(suffix[i]);
        FoldOfConcat(start, els, more);
        els := els + more;
        var kept := KeepElements(more, folder);
        added := added + kept;
      }
    }
    assert suffix[..|suffix|] == suffix;
  }

  method ReplayAssistant(input: ReplayInput, newSuffix: seq<seq<Json>>, i: nat) returns (a: Assistant)
    requires i < |newSuffix|
    ensures a == Attribute(input.response, input.stream,
                           if i + 1 < |newSuffix| then OfRole(newSuffix[i + 1], "assistant") else [])
  {
    if input.response.text != "" {
      return Assistant(Inline, input.response.truncated, Text(input.response.text));
    }
    if input.stream.text != "" {
      return Assistant(Stream, input.stream.truncated, Text(input.stream.text));
    }
    if i + 1 < |newSuffix| {
      var copies := ReplayAssistantMessages(newSuffix[i + 1]);
      if |copies| > 0 {
        return Assistant(Resend, false, Copies(copies));
      }
    }
    return Assistant(Unrecorded, false, NoRaw);
  }

  method NewSuffixes(inputs: seq<ReplayInput>) returns (systems: seq<Option<Json>>, newSuffix: seq<seq<Json>>)
    ensures |systems| == |newSuffix| == |inputs|
    ensures forall i :: 0 <= i < |inputs| ==> TurnAt(inputs, i).brings == OfSuffix(newSuffix[i], systems[i])
  {
    hide Parse, PrefixFrom, Elements, OfRole;
    var parsed: seq<ParsedBody> := [];
    for i := 0 to |inputs|
      invariant |parsed| == i
      invariant forall j :: 0 <= j < i ==> parsed[j] == ParsedAt(inputs, j)
    {
      var p := ParseReplayBody(inputs[i].body, inputs[i].bodyTruncated);
      parsed := parsed + [p];
    }
    systems, newSuffix := [], [];
    for i := 0 to |inputs|
      invariant |newSuffix| == |systems| == i
      invariant forall j :: 0 <= j < i ==> TurnAt(inputs, j).brings == OfSuffix(newSuffix[j], systems[j])
    {
      var prev := if i > 0 then parsed[i - 1].messages else [];
      var n := CommonStructPrefixLen(prev, parsed[i].messages);
      newSuffix := newSuffix + [parsed[i].messages[n..]];
      systems := systems + [parsed[i].system];
    }
  }

  lemma NothingReplayed(ts: seq<Turn>)
    ensures FoldAt(ts, 0) == FRESH && Timeline(ts, 0) == []
  {
  }

  lemma OneMoreTurn(ts: seq<Turn>, i: nat)
    requires i < |ts|
    ensures FoldAt(ts, i + 1) == After(FoldAt(ts, i), ts[i].brings.elements)
    ensures (var t, brings := Timeline(ts, i), ts[i].brings;
             Timeline(ts, i + 1)
             == if Changes(t, brings.system)
                then t + [SystemEntry(ts[i].input.requestID, ts[i].input.bodyTruncated, brings.system.value)] else t)
  {
  }

  /** The blocks of the first `n` turns. */
  function BlocksUpTo(ts: seq<Turn>, n: nat): (blocks: seq<Block>)
    requires n <= |ts|
    ensures |blocks| == n && forall i :: 0 <= i < n ==> blocks[i] == BlockAt(ts, i)
  {
    seq(n, i requires 0 <= i < n => BlockAt(ts, i))
  }

  lemma OneMoreBlock(ts: seq<Turn>, i: nat)
    requires i < |ts|
    ensures BlocksUpTo(ts, i + 1) == BlocksUpTo(ts, i) + [BlockAt(ts, i)]
  {
    hide BlockAt;
  }

  /** The pass's main loop, over the suffixes and system values it computed first. */
  method WalkTurns(inputs: seq<ReplayInput>, systems: seq<Option<Json>>, newSuffix: seq<seq<Json>>, ghost ts: seq<Turn>)
    returns (blocks: seq<Block>, system: seq<SystemEntry>)
    requires |systems| == |newSuffix| == |ts| == |inputs|
    requires forall i :: 0 <= i < |ts| ==> ts[i] == Turn(inputs[i], OfSuffix(newSuffix[i], systems[i]))
    ensures blocks == BlocksUpTo(ts, |inputs|)
    ensures system == Timeline(ts, |inputs|)
  {
    hide Kept, After, Elements, OfRole, FoldAt, Timeline, BlocksUpTo, Attribute;
    blocks, system := [], [];
    NothingReplayed(ts);
    var lastSystem: Option<Json>, systemCursor := None, -1;
    var userFolder := new UserInputFolder(FRESH);
    for i := 0 to |inputs|
      invariant blocks == BlocksUpTo(ts, i)
      invariant system == Timeline(ts, i)
      invariant lastSystem == if system == [] then None else Some(system[|system| - 1].raw)
      invariant systemCursor == |system| - 1
      invariant userFolder.State() == FoldAt(ts, i)
      invariant fresh(userFolder)
    {
      OneMoreTurn(ts, i);
      OneMoreBlock(ts, i);
      var added := CollectAdded(newSuffix[i], userFolder);
      if systems[i].Some? && (lastSystem.None? || lastSystem.value != systems[i].value) {
        system := system + [SystemEntry(inputs[i].requestID, inputs[i].bodyTruncated, systems[i].value)];
        lastSystem := systems[i];
        systemCursor := |system| - 1;
      }
      var effectiveSystem := None;
      if systemCursor >= 0 {
        effectiveSystem := Some(system[systemCursor]);
      }
      var assistant := ReplayAssistant(inputs[i], newSuffix, i);
      blocks := blocks + [Block(inputs[i].requestID, added, effectiveSystem, assistant, inputs[i].bodyTruncated)];
    }
  }

  method AssembleAgentSessionReplay(inputs: seq<ReplayInput>) returns (blocks: seq<Block>, system: seq<SystemEntry>)
    ensures |blocks| == |inputs|
    ensures forall i :: 0 <= i < |inputs| ==> blocks[i] == BlockAt(Turns(inputs), i)
    ensures system == Timeline(Turns(inputs), |inputs|)
  {
    hide Parse, PrefixFrom, Elements, OfRole, BlockAt, Timeline, Contribute;
    var systems, newSuffix := NewSuffixes(inputs);
    blocks, system := WalkTurns(inputs, systems, newSuffix, Turns(inputs));
  }

  // ----- What a later request can still change -----

  lemma TurnsOfPrefix(inputs: seq<ReplayInput>, n: nat)
    requires n <= |inputs|
    ensures Turns(inputs[..n]) == Turns(inputs)[..n]
  {
    forall i | 0 <= i < n ensures Turns(inputs[..n])[i] == Turns(inputs)[i] {
      assert inputs[..n][i] == inputs[i];
      if i > 0 {
        assert inputs[..n][i - 1] == inputs[i - 1];
      }
    }
  }

  lemma {:induction false} PrefixDetermines(ts: seq<Turn>, n: nat, i: nat)
    requires i <= n <= |ts|
    ensures FoldAt(ts[..n], i) == FoldAt(ts, i)
    ensures Timeline(ts[..n], i) == Timeline(ts, i)
  {
    if i > 0 {
      PrefixDetermines(ts, n, i - 1);
    }
  }

  /**
   Growing a session never rewrites a block, except that the reply of the last
   one, if unrecorded, may turn into the copies the next request resends.
   */
  lemma EarlierBlocksStand(inputs: seq<ReplayInput>, n: nat, i: nat)
    requires i < n <= |inputs|
    ensures var before, after := BlockAt(Turns(inputs[..n]), i), BlockAt(Turns(inputs), i);
            && after == before.(assistant := after.assistant)
            && (after != before
                <==> i + 1 == n < |inputs| && before.assistant.source == Unrecorded
                     && Turns(inputs)[n].brings.copies != [])
            && (after != before ==> after.assistant == Assistant(Resend, false, Copies(Turns(inputs)[n].brings.copies)))
  {
    hide Contribute, Parse, Kept, After, Turns;
    var ts := Turns(inputs);
    TurnsOfPrefix(inputs, n);
    PrefixDetermines(ts, n, i);
    PrefixDetermines(ts, n, i + 1);
  }

  /** Two neighbouring timeline entries never carry the same value. */
  lemma {:induction false} TimelineNeverRepeats(ts: seq<Turn>, n: nat, k: nat)
    requires n <= |ts| && k + 1 < |Timeline(ts, n)|
    ensures Timeline(ts, n)[k].raw != Timeline(ts, n)[k + 1].raw
  {
    if k + 1 < |Timeline(ts, n - 1)| {
      TimelineNeverRepeats(ts, n - 1, k);
    }
  }
}
