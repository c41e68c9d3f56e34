/**
 Message classification for the turn store (internal/agentturns/classify.go):
 which event type a caller-side message is, how a user message decomposes into
 added elements, and the fold that drops a resent duplicate of the last input.
 */
module Classify {
  import opened Wrappers
  import opened Json

  datatype EventType =
    | SystemPrompt | UserInput | ToolCall | ToolResult | Injected | AssistantReply | Pending

  const MARKERS: seq<string> :=
    ["<system-reminder", "<command-name", "<command-message", "Caveat:", "<ide_"]

  // ----- Text -----

  predicate IsBlank(c: char) {
    c == ' ' || c == '\t' || c == '\r' || c == '\n'
  }

  function TrimLeft(text: string): string {
    if text != "" && IsBlank(text[0]) then TrimLeft(text[1..]) else text
  }

  /** The injected-marker table: a marker must lead the trimmed text. */
  predicate LeadsWithMarker(text: string) {
    exists i :: 0 <= i < |MARKERS| && MARKERS[i] <= TrimLeft(text)
  }

  method ClassifyTextContent(text: string) returns (ty: EventType)
    ensures ty == if LeadsWithMarker(text) then Injected else UserInput
  {
    var trimmed := TrimLeft(text);
    for i := 0 to |MARKERS|
      invariant forall j :: 0 <= j < i ==> !(MARKERS[j] <= trimmed)
    {
      if MARKERS[i] <= trimmed {
        return Injected;
      }
    }
    return UserInput;
  }

  /** strings.Join(texts, "\n"). */
  function JoinLines(texts: seq<string>): string {
    if |texts| == 0 then ""
    else if |texts| == 1 then texts[0]
    else JoinLines(texts[..|texts| - 1]) + "\n" + texts[|texts| - 1]
  }

  lemma {:induction false} TrimOfJoin(a: string, b: string)
    ensures TrimLeft(a + "\n" + b) == if TrimLeft(a) == "" then TrimLeft(b) else TrimLeft(a) + "\n" + b
  {
    var whole := a + "\n" + b;
    if a == "" {
      assert whole[1..] == b;
    } else if IsBlank(a[0]) {
      assert whole[1..] == a[1..] + "\n" + b;
      TrimOfJoin(a[1..], b);
    }
  }

  lemma MarkersHoldNoNewline(i: nat, k: nat)
    requires i < |MARKERS| && k < |MARKERS[i]|
    ensures MARKERS[i][k] != '\n'
  {
    if i == 0 {
    } else if i == 1 {
    } else if i == 2 {
    } else if i == 3 {
    }
  }

  /** No marker holds a newline, so gluing two texts with one never makes a leading marker. */
  lemma MarkerOfJoin(a: string, b: string)
    ensures LeadsWithMarker(a + "\n" + b) ==> LeadsWithMarker(a) || LeadsWithMarker(b)
  {
    hide MARKERS, TrimLeft;
    TrimOfJoin(a, b);
    if LeadsWithMarker(a + "\n" + b) && TrimLeft(a) != "" {
      var i :| 0 <= i < |MARKERS| && MARKERS[i] <= TrimLeft(a + "\n" + b);
      var m, t := MARKERS[i], TrimLeft(a);
      if |m| > |t| {
        MarkersHoldNoNewline(i, |t|);
        assert false;
      } else {
        assert m == (t + "\n" + b)[..|m|] == t[..|m|];
      }
    }
  }

  lemma {:induction false} MarkerOfLines(texts: seq<string>)
    requires forall t :: t in texts ==> !LeadsWithMarker(t)
    ensures !LeadsWithMarker(JoinLines(texts))
  {
    if |texts| > 1 {
      MarkerOfLines(texts[..|texts| - 1]);
      MarkerOfJoin(JoinLines(texts[..|texts| - 1]), texts[|texts| - 1]);
    } else if |texts| == 1 {
      assert texts[0] in texts;
    }
  }

  // ----- Blocks -----

  predicate IsTextBlock(block: Json) {
    BlockType(block) == "text" && Field(block, "text").Str?
  }

  /** A text block that leads with an injection marker. */
  predicate IsMarked(block: Json) {
    IsTextBlock(block) && LeadsWithMarker(Field(block, "text").s)
  }

  predicate HasToolResult(blocks: seq<Json>) {
    exists b :: b in blocks && BlockType(b) == "tool_result"
  }

  /** The texts of the text blocks, in order. */
  function TextsOf(blocks: seq<Json>): seq<string> {
    if blocks == [] then []
    else
      var last := blocks[|blocks| - 1];
      TextsOf(blocks[..|blocks| - 1]) + (if IsTextBlock(last) then [Field(last, "text").s] else [])
  }

  /** The marker-led blocks (`marked`) or all the others, in order. */
  function Blocks(blocks: seq<Json>, marked: bool): seq<Json> {
    if blocks == [] then []
    else
      var last := blocks[|blocks| - 1];
      Blocks(blocks[..|blocks| - 1], marked) + (if IsMarked(last) == marked then [last] else [])
  }

  lemma ToolResultOfOneMore(blocks: seq<Json>, b: Json)
    ensures HasToolResult(blocks + [b]) == (HasToolResult(blocks) || BlockType(b) == "tool_result")
    ensures !HasToolResult([])
  {
    if HasToolResult(blocks) {
      var x :| x in blocks && BlockType(x) == "tool_result";
      assert x in blocks + [b];
    }
    assert b in blocks + [b];
  }

  lemma TextsOfOneMore(blocks: seq<Json>, b: Json)
    ensures TextsOf(blocks + [b]) == TextsOf(blocks) + (if IsTextBlock(b) then [Field(b, "text").s] else [])
    ensures TextsOf([]) == []
  {
    assert (blocks + [b])[..|blocks|] == blocks;
  }

  lemma BlocksOfOneMoreBlock(blocks: seq<Json>, b: Json, marked: bool)
    ensures Blocks(blocks + [b], marked) == Blocks(blocks, marked) + (if IsMarked(b) == marked then [b] else [])
    ensures Blocks([], marked) == []
  {
    assert (blocks + [b])[..|blocks|] == blocks;
  }

  lemma {:induction false} BlocksAreTheMatchingOnes(blocks: seq<Json>, marked: bool)
    ensures forall b :: b in Blocks(blocks, marked) <==> b in blocks && IsMarked(b) == marked
  {
    if blocks != [] {
      var init := blocks[..|blocks| - 1];
      BlocksAreTheMatchingOnes(init, marked);
      assert blocks == init + [blocks[|blocks| - 1]];
    }
  }

  /** Nothing is dropped and nothing is duplicated by the two-way partition. */
  lemma {:induction false} BlocksPartition(blocks: seq<Json>)
    ensures multiset(Blocks(blocks, true)) + multiset(Blocks(blocks, false)) == multiset(blocks)
  {
    if blocks != [] {
      BlocksPartition(blocks[..|blocks| - 1]);
      assert blocks == blocks[..|blocks| - 1] + [blocks[|blocks| - 1]];
    }
  }

  lemma {:induction false} AllOneSide(blocks: seq<Json>, marked: bool)
    requires forall b :: b in blocks ==> IsMarked(b) == marked
    ensures Blocks(blocks, marked) == blocks
    ensures Blocks(blocks, !marked) == []
  {
    hide IsMarked, Blocks;
    if blocks == [] {
      BlocksOfOneMoreBlock([], Null, marked);
      BlocksOfOneMoreBlock([], Null, !marked);
    } else {
      var init, last := blocks[..|blocks| - 1], blocks[|blocks| - 1];
      assert last in blocks && blocks == init + [last];
      AllOneSide(init, marked);
      BlocksOfOneMoreBlock(init, last, marked);
      BlocksOfOneMoreBlock(init, last, !marked);
    }
  }

  lemma NoneMarked(blocks: seq<Json>)
    requires Blocks(blocks, true) == []
    ensures Blocks(blocks, false) == blocks
    ensures forall b :: b in blocks ==> !IsMarked(b)
  {
    hide IsMarked, Blocks;
    BlocksAreTheMatchingOnes(blocks, true);
    forall b | b in blocks ensures !IsMarked(b) {
      assert b in Blocks(blocks, true) <==> IsMarked(b) == true;
    }
    AllOneSide(blocks, false);
  }

  // ----- Classification -----

  /** classifyUserMessage on a user-role message's content. */
  function ContentType(content: Json): EventType {
    match content
    case Arr(blocks) =>
      if HasToolResult(blocks) then ToolResult
      else if LeadsWithMarker(JoinLines(TextsOf(blocks))) then Injected
      else UserInput
    case Str(text) => if LeadsWithMarker(text) then Injected else UserInput
    case _ => UserInput
  }

  method ClassifyUserMessage(content: Json) returns (ty: EventType)
    ensures ty == ContentType(content)
  {
    hide HasToolResult, TextsOf, LeadsWithMarker, JoinLines, BlockType;
    match content
    case Arr(blocks) =>
      var hasToolResult, texts := false, [];
      ToolResultOfOneMore([], content);
      TextsOfOneMore([], content);
      for i := 0 to |blocks|
        invariant hasToolResult == HasToolResult(blocks[..i])
        invariant texts == TextsOf(blocks[..i])
      {
        assert blocks[..i + 1] == blocks[..i] + [blocks[i]];
        ToolResultOfOneMore(blocks[..i], blocks[i]);
        TextsOfOneMore(blocks[..i], blocks[i]);
        if BlockType(blocks[i]) == "tool_result" {
          hasToolResult := true;
        }
        if BlockType(blocks[i]) == "text" {
          if Field(blocks[i], "text").Str? {
            texts := texts + [Field(blocks[i], "text").s];
          }
        }
      }
      assert blocks[..|blocks|] == blocks;
      if hasToolResult {
        return ToolResult;
      }
      ty := ClassifyTextContent(JoinLines(texts));
    case Str(text) =>
      ty := ClassifyTextContent(text);
    case _ =>
      ty := UserInput;
  }

  /** ClassifyAddedMessage: the event type of one added element. */
  function Class(m: Json): EventType {
    if !m.Obj? then UserInput
    else if RoleOf(m) == "tool" then ToolResult
    else if RoleOf(m) == "user" then ContentType(Field(m, "content"))
    else UserInput
  }

  method ClassifyAddedMessage(m: Json) returns (ty: EventType)
    ensures ty == Class(m)
  {
    if !m.Obj? {
      return UserInput;
    }
    var role := RoleOf(m);
    if role == "tool" {
      return ToolResult;
    } else if role == "user" {
      ty := ClassifyUserMessage(Field(m, "content"));
    } else {
      return UserInput;
    }
  }

  // ----- What the event types mean -----

  lemma {:induction false} TrimLeftIs(text: string)
    ensures (var t := TrimLeft(text);
             && |t| <= |text| && text[|text| - |t|..] == t
             && (forall i :: 0 <= i < |text| - |t| ==> IsBlank(text[i]))
             && (t != "" ==> !IsBlank(t[0])))
  {
    if text != "" && IsBlank(text[0]) {
      TrimLeftIs(text[1..]);
      var t := TrimLeft(text[1..]);
      assert text[|text| - |t|..] == text[1..][|text[1..]| - |t|..];
      forall i | 0 <= i < |text| - |t| ensures IsBlank(text[i]) {
        if i > 0 {
          assert text[i] == text[1..][i - 1];
        }
      }
    }
  }

  lemma MarkersAreWords(m: string)
    requires m in MARKERS
    ensures m != "" && !IsBlank(m[0])
  {
  }

  /** A marker leads a text exactly when nothing but blanks stands before it. */
  lemma MarkerLeadsExactlyWhen(text: string)
    ensures LeadsWithMarker(text)
       <==> exists k, m :: 0 <= k <= |text| && m in MARKERS && (forall i :: 0 <= i < k ==> IsBlank(text[i])) && m <= text[k..]
  {
    hide MARKERS, TrimLeft, IsBlank;
    TrimLeftIs(text);
    var t := TrimLeft(text);
    if LeadsWithMarker(text) {
      var i :| 0 <= i < |MARKERS| && MARKERS[i] <= t;
      assert text[|text| - |t|..] == t && MARKERS[i] in MARKERS;
    }
    if k, m :| 0 <= k <= |text| && m in MARKERS && (forall i :: 0 <= i < k ==> IsBlank(text[i])) && m <= text[k..] {
      MarkersAreWords(m);
      assert text[k] == text[k..][0] == m[0];
      assert t[0] == text[|text| - |t|..][0] == text[|text| - |t|];
      assert k == |text| - |t|;
    }
  }

  /** Each of the wrappers is known by its opening, whatever follows. */
  lemma EveryWrapperIsKnown(rest: string)
    ensures LeadsWithMarker("<system-reminder" + rest) && LeadsWithMarker("<command-name" + rest)
    ensures LeadsWithMarker("<command-message" + rest) && LeadsWithMarker("Caveat:" + rest) && LeadsWithMarker("<ide_" + rest)
    ensures |MARKERS| == 5
  {
    assert MARKERS[0] == "<system-reminder" && MARKERS[1] == "<command-name" && MARKERS[2] == "<command-message"
        && MARKERS[3] == "Caveat:" && MARKERS[4] == "<ide_";
    hide MARKERS;
    forall i | 0 <= i < 5 ensures LeadsWithMarker(MARKERS[i] + rest) {
      MarkersAreWords(MARKERS[i]);
      assert TrimLeft(MARKERS[i] + rest) == MARKERS[i] + rest;
    }
  }

  /** A tool's answer, in either dialect: a message of role tool, or a user message holding a tool_result block. */
  predicate AnswersATool(m: Json) {
    && m.Obj?
    && (RoleOf(m) == "tool"
        || (RoleOf(m) == "user" && Field(m, "content").Arr?
            && exists b :: b in Field(m, "content").items && TextOf(Field(b, "type")) == "tool_result"))
  }

  /** Exactly which caller-side messages are of which type; there is no fourth. */
  lemma ClassByCases(m: Json)
    ensures Class(m) == ToolResult <==> AnswersATool(m)
    ensures Class(m) == Injected <==> !AnswersATool(m) && m.Obj? && RoleOf(m) == "user" && LeadsWithMarker(RealText(m))
    ensures Class(m) == UserInput <==> !AnswersATool(m) && !(m.Obj? && RoleOf(m) == "user" && LeadsWithMarker(RealText(m)))
  {
    hide MARKERS, TextsOf, JoinLines;
    NoMarkerLeadsNothing();
  }

  lemma NoMarkerLeadsNothing()
    ensures !LeadsWithMarker("")
  {
  }

  /** A tool's answer and injected context pass the duplicate fold and leave no trace in it. */
  lemma MachineTurnsPassTheFold(f: FoldState, m: Json)
    requires AnswersATool(m) || (m.Obj? && RoleOf(m) == "user" && LeadsWithMarker(RealText(m)))
    ensures Kept(f, [m]) == [m] && After(f, [m]) == f
  {
    hide Class, RealText;
    ClassByCases(m);
    assert [m][..0] == [];
  }

  function TextBlock(text: string): Json {
    Obj(map["type" := Str("text"), "text" := Str(text)])
  }

  /** One text is the same words and the same type of message, sent as a string or as a block. */
  lemma EitherFormIsTheSame(text: string)
    ensures (var plain, blocks := Obj(map["role" := Str("user"), "content" := Str(text)]), UserMessage([TextBlock(text)]);
             && RealText(plain) == RealText(blocks) == text
             && Class(plain) == Class(blocks) && Split(plain) == [plain]
             && Class(plain) == if LeadsWithMarker(text) then Injected else UserInput)
  {
    hide MARKERS, LeadsWithMarker;
    assert [TextBlock(text)][..0] == [];
    assert TextsOf([TextBlock(text)]) == [text];
    assert !HasToolResult([TextBlock(text)]);
  }

  /** The text blocks, by the type they name and the text they hold. */
  predicate HoldsText(b: Json) {
    TextOf(Field(b, "type")) == "text" && Field(b, "text").Str?
  }

  ghost predicate TextsIn(texts: seq<string>, picked: seq<Json>) {
    |texts| == |picked| && forall i :: 0 <= i < |picked| ==> texts[i] == TextOf(Field(picked[i], "text"))
  }

  /** The words of a block array are the texts of its text blocks, in order. */
  lemma {:induction false} TextsAreTheTextBlocks(blocks: seq<Json>) returns (picked: seq<Json>)
    ensures IsFilter(picked, blocks, HoldsText) && TextsIn(TextsOf(blocks), picked)
  {
    hide IsFilter;
    if blocks == [] {
      picked := [];
      NothingFiltered<Json>(HoldsText);
    } else {
      var init, last := blocks[..|blocks| - 1], blocks[|blocks| - 1];
      var before := TextsAreTheTextBlocks(init);
      FilterOneMore(before, init, last, HoldsText);
      assert blocks == init + [last];
      picked := before + if HoldsText(last) then [last] else [];
    }
  }

  lemma {:induction false} JoinOfConcat(a: seq<string>, b: seq<string>)
    requires a != [] && b != []
    ensures JoinLines(a + b) == JoinLines(a) + "\n" + JoinLines(b)
    ensures JoinLines([a[0]]) == a[0]
  {
    assert (a + b)[..|a + b| - 1] == a + b[..|b| - 1];
    if |b| > 1 {
      JoinOfConcat(a, b[..|b| - 1]);
    } else {
      assert a + b[..|b| - 1] == a;
    }
  }

  // ----- Splitting -----

  function UserMessage(blocks: seq<Json>): Json {
    Obj(map["role" := Str("user"), "content" := Arr(blocks)])
  }

  /** The shapes the splitter looks into: a user message of blocks without a tool result. */
  predicate IsSplittable(m: Json) {
    m.Obj? && RoleOf(m) == "user" && Field(m, "content").Arr? && !HasToolResult(Field(m, "content").items)
  }

  /** Each block as a message of its own. */
  function Wrapped(blocks: seq<Json>): seq<Json> {
    if blocks == [] then []
    else Wrapped(blocks[..|blocks| - 1]) + [UserMessage([blocks[|blocks| - 1]])]
  }

  lemma {:induction false} WrappedAt(blocks: seq<Json>, i: nat)
    requires i < |blocks|
    ensures |Wrapped(blocks)| == |blocks|
    ensures Wrapped(blocks)[i] == UserMessage([blocks[i]])
  {
    if |blocks| > 1 {
      WrappedAt(blocks[..|blocks| - 1], if i < |blocks| - 1 then i else 0);
    }
  }

  lemma WrappedOfOneMore(blocks: seq<Json>, b: Json)
    ensures Wrapped(blocks + [b]) == Wrapped(blocks) + [UserMessage([b])]
    ensures Wrapped([]) == []
  {
    assert (blocks + [b])[..|blocks|] == blocks;
  }

  /** The added elements one caller-side message decomposes into. */
  function Split(m: Json): seq<Json> {
    if !IsSplittable(m) then [m]
    else
      var blocks := Field(m, "content").items;
      var injected, kept := Blocks(blocks, true), Blocks(blocks, false);
      if injected == [] then [m]
      else Wrapped(injected) + if kept == [] then [] else [UserMessage(kept)]
  }

  method SplitUserMessageForAdded(m: Json) returns (out: seq<Json>)
    ensures out == Split(m)
  {
    hide HasToolResult, Blocks, Wrapped, LeadsWithMarker, BlockType, UserMessage;
    if !m.Obj? || RoleOf(m) != "user" || !Field(m, "content").Arr? {
      return [m];
    }
    var blocks := Field(m, "content").items;
    ToolResultOfOneMore([], m);
    for i := 0 to |blocks|
      invariant !HasToolResult(blocks[..i])
    {
      assert blocks[..i + 1] == blocks[..i] + [blocks[i]];
      ToolResultOfOneMore(blocks[..i], blocks[i]);
      if BlockType(blocks[i]) == "tool_result" {
        ToolResultInside(blocks, i);
        return [m];
      }
    }
    assert blocks[..|blocks|] == blocks;
    var injected, kept, split := [], [], false;
    BlocksOfOneMoreBlock([], m, true);
    BlocksOfOneMoreBlock([], m, false);
    WrappedOfOneMore([], m);
    for i := 0 to |blocks|
      invariant injected == Wrapped(Blocks(blocks[..i], true))
      invariant kept == Blocks(blocks[..i], false)
      invariant split == (Blocks(blocks[..i], true) != [])
    {
      var block := blocks[i];
      assert blocks[..i + 1] == blocks[..i] + [block];
      BlocksOfOneMoreBlock(blocks[..i], block, true);
      BlocksOfOneMoreBlock(blocks[..i], block, false);
      if BlockType(block) == "text" && Field(block, "text").Str? {
        var ty := ClassifyTextContent(Field(block, "text").s);
        assert IsMarked(block) == (ty == Injected);
        if ty == Injected {
          assert Blocks(blocks[..i + 1], true) == Blocks(blocks[..i], true) + [block];
          WrappedOfOneMore(Blocks(blocks[..i], true), block);
          injected := injected + [UserMessage([block])];
          split := true;
          continue;
        }
      }
      assert Blocks(blocks[..i + 1], true) == Blocks(blocks[..i], true);
      kept := kept + [block];
    }
    assert blocks[..|blocks|] == blocks;
    if !split {
      return [m];
    }
    out := injected;
    if |kept| > 0 {
      out := out + [UserMessage(kept)];
    }
  }

  /** A message is looked into exactly when it is a user message of blocks that answers no tool; any other stands as it is. */
  lemma SplittableExactlyWhen(m: Json)
    ensures IsSplittable(m) <==> m.Obj? && RoleOf(m) == "user" && Field(m, "content").Arr? && !AnswersATool(m)
    ensures !IsSplittable(m) || (forall b :: b in Field(m, "content").items ==> !(HoldsText(b) && LeadsWithMarker(TextOf(Field(b, "text")))))
            ==> Split(m) == [m]
  {
    hide LeadsWithMarker, Wrapped;
    if IsSplittable(m) && Split(m) != [m] {
      var blocks := Field(m, "content").items;
      BlocksAreTheMatchingOnes(blocks, true);
      var b := Blocks(blocks, true)[0];
      assert b in Blocks(blocks, true) && b in blocks && IsMarked(b);
      assert HoldsText(b);
    }
  }

  lemma ToolResultInside(blocks: seq<Json>, i: nat)
    requires i < |blocks| && BlockType(blocks[i]) == "tool_result"
    ensures HasToolResult(blocks)
  {
    assert blocks[i] in blocks;
  }

  // ----- The split is lossless -----

  /** The content blocks of a list of messages, in order. */
  function BlocksOf(ms: seq<Json>): seq<Json> {
    if ms == [] then []
    else
      var content := Field(ms[|ms| - 1], "content");
      BlocksOf(ms[..|ms| - 1]) + if content.Arr? then content.items else []
  }

  lemma {:induction false} BlocksOfWrapped(blocks: seq<Json>)
    ensures BlocksOf(Wrapped(blocks)) == blocks
  {
    if blocks != [] {
      var init := blocks[..|blocks| - 1];
      BlocksOfWrapped(init);
      assert blocks == init + [blocks[|blocks| - 1]];
      hide Wrapped, BlocksOf;
      WrappedOfOneMore(init, blocks[|blocks| - 1]);
      BlocksOfOneMore(Wrapped(init), UserMessage([blocks[|blocks| - 1]]), [blocks[|blocks| - 1]]);
    }
  }

  lemma BlocksOfSplit(m: Json)
    requires IsSplittable(m)
    ensures BlocksOf(Split(m)) == Blocks(Field(m, "content").items, true) + Blocks(Field(m, "content").items, false)
  {
    var blocks := Field(m, "content").items;
    var injected, kept := Blocks(blocks, true), Blocks(blocks, false);
    if injected == [] {
      NoneMarked(blocks);
      BlocksOfOneMore([], m, blocks);
      assert Split(m) == [] + [m];
    } else {
      BlocksOfWrapped(injected);
      if kept != [] {
        BlocksOfOneMore(Wrapped(injected), UserMessage(kept), kept);
      } else {
        assert Split(m) == Wrapped(injected);
      }
    }
  }

  /**
   The blocks of the elements are exactly the message's blocks: the marker-led
   ones first, then the rest, each group in its order, none lost or repeated.
   */
  lemma SplitIsLossless(m: Json)
    requires IsSplittable(m)
    ensures var blocks := Field(m, "content").items;
            && BlocksOf(Split(m)) == Blocks(blocks, true) + Blocks(blocks, false)
            && multiset(BlocksOf(Split(m))) == multiset(blocks)
  {
    BlocksOfSplit(m);
    BlocksPartition(Field(m, "content").items);
  }

  lemma BlocksOfOneMore(ms: seq<Json>, m: Json, blocks: seq<Json>)
    requires Field(m, "content") == Arr(blocks)
    ensures BlocksOf(ms + [m]) == BlocksOf(ms) + blocks
  {
    assert (ms + [m])[..|ms|] == ms;
  }

  lemma {:induction false} UnmarkedTexts(blocks: seq<Json>)
    requires forall b :: b in blocks ==> !IsMarked(b)
    ensures forall t :: t in TextsOf(blocks) ==> !LeadsWithMarker(t)
  {
    if blocks != [] {
      UnmarkedTexts(blocks[..|blocks| - 1]);
      assert blocks[|blocks| - 1] in blocks;
    }
  }

  /** A message of unmarked, tool-result-free blocks reads as human input. */
  lemma UnmarkedIsUserInput(blocks: seq<Json>)
    requires !HasToolResult(blocks)
    requires forall b :: b in blocks ==> !IsMarked(b)
    ensures Class(UserMessage(blocks)) == UserInput
  {
    UnmarkedTexts(blocks);
    MarkerOfLines(TextsOf(blocks));
  }

  lemma MarkedIsInjected(block: Json)
    requires IsMarked(block)
    ensures Class(UserMessage([block])) == Injected
  {
    assert [block][..0] == [];
    assert TextsOf([block]) == [Field(block, "text").s];
    assert BlockType(block) == "text";
  }

  /**
   What each element of a split message is: every extracted block an injected
   element, the merged rest one user input, and an untouched message itself a
   user input.
   */
  lemma SplitClassAt(m: Json, i: nat)
    requires IsSplittable(m) && i < |Split(m)|
    ensures Class(Split(m)[i])
         == if i < |Blocks(Field(m, "content").items, true)| then Injected else UserInput
  {
    var blocks := Field(m, "content").items;
    var injected, kept := Blocks(blocks, true), Blocks(blocks, false);
    if injected == [] {
      NoneMarked(blocks);
      UnmarkedIsUserInput(blocks);
    } else {
      WrappedAt(injected, 0);
      if i < |injected| {
        WrappedAt(injected, i);
        BlocksAreTheMatchingOnes(blocks, true);
        assert injected[i] in injected;
        MarkedIsInjected(injected[i]);
      } else {
        BlocksAreTheMatchingOnes(blocks, false);
        UnmarkedIsUserInput(kept);
      }
    }
  }

  /** A message that is one marker-led block is its own split. */
  lemma MarkedSplitsToItself(block: Json)
    requires IsMarked(block)
    ensures Split(UserMessage([block])) == [UserMessage([block])]
  {
    AllOneSide([block], true);
    assert BlockType(block) == "text";
    WrappedAt([block], 0);
  }

  lemma UnmarkedSplitsToItself(blocks: seq<Json>)
    requires forall b :: b in blocks ==> !IsMarked(b)
    ensures Split(UserMessage(blocks)) == [UserMessage(blocks)]
  {
    AllOneSide(blocks, false);
  }

  /** Splitting an element again changes nothing. */
  lemma SplitIsIdempotent(m: Json, i: nat)
    requires i < |Split(m)|
    ensures Split(Split(m)[i]) == [Split(m)[i]]
  {
    if Split(m) != [m] {
      var blocks := Field(m, "content").items;
      var injected, kept := Blocks(blocks, true), Blocks(blocks, false);
      WrappedAt(injected, 0);
      if i < |injected| {
        WrappedAt(injected, i);
        BlocksAreTheMatchingOnes(blocks, true);
        assert injected[i] in injected;
        MarkedSplitsToItself(injected[i]);
      } else {
        BlocksAreTheMatchingOnes(blocks, false);
        UnmarkedSplitsToItself(kept);
      }
    }
  }

  // ----- The duplicate-input fold -----

  /** UserInputRealText: the human words of an element, the fold's comparison key. */
  function RealText(m: Json): string {
    match Field(m, "content")
    case Str(text) => text
    case Arr(blocks) => JoinLines(TextsOf(blocks))
    case _ => ""
  }

  method UserInputRealText(m: Json) returns (text: string)
    ensures text == RealText(m)
  {
    match Field(m, "content")
    case Str(t) => return t;
    case Arr(blocks) =>
      var texts := [];
      for i := 0 to |blocks|
        invariant texts == TextsOf(blocks[..i])
      {
        assert blocks[..i + 1][..i] == blocks[..i];
        if BlockType(blocks[i]) == "text" && Field(blocks[i], "text").Str? {
          texts := texts + [Field(blocks[i], "text").s];
        }
      }
      assert blocks[..|blocks|] == blocks;
      return JoinLines(texts);
    case _ => return "";
  }

  /** The fold's state: the real text of the last user input that was kept. */
  datatype FoldState = FoldState(last: string, hasLast: bool)

  const FRESH := FoldState("", false)

  predicate Keeps(f: FoldState, el: Json) {
    Class(el) == UserInput && f.hasLast && RealText(el) != "" ==> RealText(el) != f.last
  }

  function Next(f: FoldState, el: Json): FoldState {
    if Class(el) == UserInput && Keeps(f, el) then FoldState(RealText(el), true) else f
  }

  class UserInputFolder {
    var last: string
    var hasLast: bool

    constructor (start: FoldState)
      ensures State() == start
    {
      last, hasLast := start.last, start.hasLast;
    }

    function State(): FoldState
      reads this
    {
      FoldState(last, hasLast)
    }

    method Keep(el: Json) returns (kept: bool)
      modifies this
      ensures kept == Keeps(old(State()), el)
      ensures State() == Next(old(State()), el)
    {
      var ty := ClassifyAddedMessage(el);
      if ty != UserInput {
        return true;
      }
      var text := UserInputRealText(el);
      if hasLast && text != "" && text == last {
        return false;
      }
      last, hasLast := text, true;
      return true;
    }
  }

  /** The elements of a list that survive the fold. */
  function Kept(f: FoldState, els: seq<Json>): seq<Json> {
    if els == [] then []
    else
      var init, last := els[..|els| - 1], els[|els| - 1];
      Kept(f, init) + if Keeps(After(f, init), last) then [last] else []
  }

  /** The fold state a list leaves behind. */
  function After(f: FoldState, els: seq<Json>): FoldState {
    if els == [] then f
    else Next(After(f, els[..|els| - 1]), els[|els| - 1])
  }

  lemma {:induction false} FoldOfConcat(f: FoldState, a: seq<Json>, b: seq<Json>)
    ensures Kept(f, a + b) == Kept(f, a) + Kept(After(f, a), b)
    ensures After(f, a + b) == After(After(f, a), b)
  {
    if b == [] {
      assert a + b == a;
    } else {
      assert (a + b)[..|a + b| - 1] == a + b[..|b| - 1];
      FoldOfConcat(f, a, b[..|b| - 1]);
    }
  }

  /** The state a list of kept rows speaks for: the last user input among them, else `f`. */
  function StateOfRows(f: FoldState, rows: seq<Json>): FoldState {
    if rows == [] then f
    else if Class(rows[|rows| - 1]) == UserInput then FoldState(RealText(rows[|rows| - 1]), true)
    else StateOfRows(f, rows[..|rows| - 1])
  }

  /** Reading the state back off the kept elements gives the state the fold ended in. */
  lemma {:induction false} StateIsReadableFromKept(f: FoldState, els: seq<Json>)
    ensures StateOfRows(f, Kept(f, els)) == After(f, els)
  {
    if els != [] {
      var init := els[..|els| - 1];
      StateIsReadableFromKept(f, init);
      var kept := Kept(f, els);
      if kept != Kept(f, init) {
        assert kept[..|kept| - 1] == Kept(f, init);
      }
    }
  }

  /** No two neighbouring user inputs of the kept list carry the same words. */
  lemma {:induction false} KeptNeverRepeats(f: FoldState, els: seq<Json>, i: nat, j: nat)
    requires i < j < |Kept(f, els)|
    requires Class(Kept(f, els)[i]) == UserInput && Class(Kept(f, els)[j]) == UserInput
    requires forall k :: i < k < j ==> Class(Kept(f, els)[k]) != UserInput
    ensures RealText(Kept(f, els)[j]) != "" ==> RealText(Kept(f, els)[i]) != RealText(Kept(f, els)[j])
  {
    var init := els[..|els| - 1];
    var kept, before := Kept(f, els), Kept(f, init);
    assert kept == before || kept == before + [els[|els| - 1]];
    if j < |before| {
      assert forall k :: 0 <= k < |before| ==> kept[k] == before[k];
      KeptNeverRepeats(f, init, i, j);
    } else {
      StateIsReadableFromKept(f, init);
      forall k | i < k < |before| ensures Class(before[k]) != UserInput {
        assert kept[k] == before[k];
      }
      StateOfRowsIsLastInput(f, before, i);
    }
  }

  lemma {:induction false} StateOfRowsIsLastInput(f: FoldState, rows: seq<Json>, i: nat)
    requires i < |rows| && Class(rows[i]) == UserInput
    requires forall k :: i < k < |rows| ==> Class(rows[k]) != UserInput
    ensures StateOfRows(f, rows) == FoldState(RealText(rows[i]), true)
  {
    if i < |rows| - 1 {
      StateOfRowsIsLastInput(f, rows[..|rows| - 1], i);
    }
  }

  /** MessageCarriesToolUse: the test that adds a tool_call row beside a resent copy. */
  predicate CarriesToolUse(m: Json) {
    Field(m, "content").Arr? && exists b :: b in Field(m, "content").items && BlockType(b) == "tool_use"
  }
}
