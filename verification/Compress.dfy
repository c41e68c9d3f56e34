/**
 One compression pass (internal/compress/compress.go): the gates between the located
 blocks and the splice, and every way the pass gives the body back untouched. The
 located blocks, the content detector, the compressors, the string encoder and the
 deadline are parameters.
 */
module Compress {
  import opened Wrappers
  import opened Splice

  datatype LiveBlock = LiveBlock(text: Bytes, start: int, end: int)

  /** What one compressor makes of a text; Blew is a panic. */
  datatype Compressed = Output(text: Bytes) | Failed | Blew

  datatype Compressor = Compressor(name: string, compress: Bytes -> Compressed)

  datatype Detected = Chain(compressors: seq<Compressor>) | NoCompressor | DetectorBlew

  /** When the context is seen done: before a block, after a compressor's error on a block, before committing. */
  datatype Deadline = Deadline(beforeBlock: nat -> bool, afterError: (nat, nat) -> bool, atEnd: bool)

  datatype Options = Options(minBlockBytes: int, maxLiveZoneBytes: int)

  datatype SkipReason =
    | ParseError
    | NoLiveZone
    | TotalSizeExceeded
    | Timeout
    | NoMatchingCompressor
    | NoEffectiveReplacement
    | FailOpen

  datatype Result = Skipped(reason: SkipReason) | Done(tokensSaved: nat, applied: seq<string>, blocksModified: nat)

  /** The outside world of one pass. */
  datatype World = World(detect: Bytes -> Detected, encode: Bytes -> Option<Bytes>, deadline: Deadline)

  function TotalText(blocks: seq<LiveBlock>): nat {
    if blocks == [] then 0 else TotalText(blocks[..|blocks| - 1]) + |blocks[|blocks| - 1].text|
  }

  function TokensSaved(original: nat, compressed: nat): nat {
    if original <= compressed then 0 else (original - compressed) / 4
  }

  // ----- One block -----

  datatype Tried = Won(text: Bytes, name: string) | NoneWon | Expired | Exploded

  /** The first compressor, from the j-th on, to yield something strictly shorter. */
  function Try(w: World, chain: seq<Compressor>, text: Bytes, i: nat, j: nat): Tried
    requires j <= |chain|
    decreases |chain| - j
  {
    if j == |chain| then NoneWon
    else match chain[j].compress(text)
      case Blew => Exploded
      case Failed => if w.deadline.afterError(i, j) then Expired else Try(w, chain, text, i, j + 1)
      case Output(r) => if |r| < |text| then Won(r, chain[j].name) else Try(w, chain, text, i, j + 1)
  }

  /** What one block contributes to the pass. */
  datatype Part = Untouched | Gap | Replaced(rep: Replacement, name: string, tokens: nat) | Halted(reason: SkipReason)

  function PartOf(w: World, opts: Options, blk: LiveBlock, i: nat): Part {
    if w.deadline.beforeBlock(i) then Halted(Timeout)
    else if |blk.text| < opts.minBlockBytes then Untouched
    else match w.detect(blk.text)
      case DetectorBlew => Halted(FailOpen)
      case NoCompressor => Gap
      case Chain(chain) =>
        match Try(w, chain, blk.text, i, 0)
        case Exploded => Halted(FailOpen)
        case Expired => Halted(Timeout)
        case NoneWon => Untouched
        case Won(text, name) =>
          match w.encode(text)
          case None => Untouched
          case Some(enc) =>
            if |enc| >= blk.end - blk.start || name == "" then Untouched
            else Replaced(Replacement(blk.start, blk.end, enc), name, TokensSaved(|blk.text|, |text|))
  }

  // ----- The pass -----

  datatype Gathered = Gathered(reps: seq<Replacement>, applied: seq<string>, tokens: nat, gap: bool)

  datatype Progress = Going(got: Gathered) | Stopped(reason: SkipReason)

  function Gather(w: World, opts: Options, blocks: seq<LiveBlock>): Progress {
    if blocks == [] then Going(Gathered([], [], 0, false))
    else
      var n := |blocks| - 1;
      match Gather(w, opts, blocks[..n])
      case Stopped(reason) => Stopped(reason)
      case Going(got) =>
        match PartOf(w, opts, blocks[n], n)
        case Halted(reason) => Stopped(reason)
        case Untouched => Going(got)
        case Gap => Going(got.(gap := true))
        case Replaced(rep, name, tokens) =>
          Going(Gathered(got.reps + [rep], got.applied + [name], got.tokens + tokens, got.gap))
  }

  /** How a pass over a valid body ends: the replacements to splice, or why there are none. */
  function Verdict(w: World, opts: Options, blocks: seq<LiveBlock>): Progress {
    if blocks == [] then Stopped(NoLiveZone)
    else if TotalText(blocks) > opts.maxLiveZoneBytes then Stopped(TotalSizeExceeded)
    else match Gather(w, opts, blocks)
      case Stopped(reason) => Stopped(reason)
      case Going(got) =>
        if w.deadline.atEnd then Stopped(Timeout)
        else if got.reps == [] then Stopped(if got.gap then NoMatchingCompressor else NoEffectiveReplacement)
        else Going(got)
  }

  /** A pass carries out its verdict: the reason given, or the replacements spliced and reported. */
  ghost predicate Carries(body: Bytes, verdict: Progress, out: Bytes, res: Result) {
    if verdict.Stopped? then out == body && res == Skipped(verdict.reason)
    else
      var got := verdict.got;
      && res == Done(got.tokens, got.applied, |got.reps|)
      && (exists sorted :: IsArrangement(sorted, got.reps) && out == Spliced(body, 0, sorted))
      && (Separate(body, got.reps) ==> IsSplice(body, got.reps, out))
  }

  method TryChain(w: World, chain: seq<Compressor>, text: Bytes, i: nat) returns (tried: Tried)
    ensures tried == Try(w, chain, text, i, 0)
  {
    for j := 0 to |chain|
      invariant Try(w, chain, text, i, 0) == Try(w, chain, text, i, j)
    {
      var r := chain[j].compress(text);
      if r.Blew? {
        return Exploded;
      }
      if r.Failed? {
        if w.deadline.afterError(i, j) {
          return Expired;
        }
        continue;
      }
      if |r.text| < |text| {
        return Won(r.text, chain[j].name);
      }
    }
    return NoneWon;
  }

  /**
   The whole pass. `located` is None when the locator panics; any panic or expiry
   gives the original body back.
   */
  method RunCompress(body: Bytes, valid: bool, located: Option<seq<LiveBlock>>, w: World, opts: Options)
    returns (out: Bytes, res: Result)
    ensures res.Skipped? ==> out == body
    ensures !valid ==> res == Skipped(ParseError)
    ensures valid && located.None? ==> res == Skipped(FailOpen)
    ensures valid && located.Some? ==> Carries(body, Verdict(w, opts, located.value), out, res)
    ensures valid && located.Some? && Located(body, located.value) && res.Done? ==> |out| < |body|
  {
    out := body;
    if !valid {
      return out, Skipped(ParseError);
    }
    if located.None? {
      return out, Skipped(FailOpen);
    }
    var blocks := located.value;
    if |blocks| == 0 {
      return out, Skipped(NoLiveZone);
    }
    var total := 0;
    for i := 0 to |blocks|
      invariant total == TotalText(blocks[..i])
    {
      assert blocks[..i + 1][..i] == blocks[..i];
      total := total + |blocks[i].text|;
    }
    assert blocks[..|blocks|] == blocks;
    if total > opts.maxLiveZoneBytes {
      return out, Skipped(TotalSizeExceeded);
    }
    var got, stopped := Collect(w, opts, blocks);
    if stopped.Some? {
      return out, Skipped(stopped.value);
    }
    if w.deadline.atEnd {
      return out, Skipped(Timeout);
    }
    if |got.reps| == 0 {
      return out, Skipped(if got.gap then NoMatchingCompressor else NoEffectiveReplacement);
    }
    out := SpliceBody(body, got.reps);
    res := Done(got.tokens, got.applied, |got.reps|);
    if Located(body, blocks) {
      ghost var sorted :| IsArrangement(sorted, got.reps) && out == Spliced(body, 0, sorted);
      PassOnlyShortens(body, w, opts, blocks, got, sorted);
    }
  }

  /** The loop's body: what one block contributes. */
  method TryBlock(w: World, opts: Options, blk: LiveBlock, i: nat) returns (part: Part)
    ensures part == PartOf(w, opts, blk, i)
  {
    if w.deadline.beforeBlock(i) {
      return Halted(Timeout);
    }
    if |blk.text| < opts.minBlockBytes {
      return Untouched;
    }
    var detected := w.detect(blk.text);
    if detected.DetectorBlew? {
      return Halted(FailOpen);
    }
    if detected.NoCompressor? {
      return Gap;
    }
    var tried := TryChain(w, detected.compressors, blk.text, i);
    if tried.Exploded? || tried.Expired? {
      return Halted(if tried.Exploded? then FailOpen else Timeout);
    }
    if tried.NoneWon? || tried.name == "" {
      return Untouched;
    }
    var enc := w.encode(tried.text);
    if enc.None? {
      return Untouched;
    }
    if |enc.value| >= blk.end - blk.start {
      return Untouched;
    }
    return Replaced(Replacement(blk.start, blk.end, enc.value), tried.name, TokensSaved(|blk.text|, |tried.text|));
  }

  /** The loop over the blocks; `stopped` says why it gave up, if it did. */
  method Collect(w: World, opts: Options, blocks: seq<LiveBlock>) returns (got: Gathered, stopped: Option<SkipReason>)
    ensures Gather(w, opts, blocks) == if stopped.Some? then Stopped(stopped.value) else Going(got)
  {
    hide PartOf;
    var reps: seq<Replacement>, applied: seq<string>, tokens: nat, gap := [], [], 0, false;
    got := Gathered([], [], 0, false);
    for i := 0 to |blocks|
      invariant Gather(w, opts, blocks[..i]) == Going(Gathered(reps, applied, tokens, gap))
    {
      assert blocks[..i + 1][..i] == blocks[..i];
      var part := TryBlock(w, opts, blocks[i], i);
      match part
      case Halted(reason) =>
        StoppedStays(w, opts, blocks, i + 1);
        return got, Some(reason);
      case Untouched =>
      case Gap =>
        gap := true;
      case Replaced(rep, name, saved) =>
        reps := reps + [rep];
        applied := applied + [name];
        tokens := tokens + saved;
    }
    assert blocks[..|blocks|] == blocks;
    got := Gathered(reps, applied, tokens, gap);
    stopped := None;
  }

  lemma {:induction false} StoppedStays(w: World, opts: Options, blocks: seq<LiveBlock>, n: nat)
    requires n <= |blocks| && Gather(w, opts, blocks[..n]).Stopped?
    ensures Gather(w, opts, blocks) == Gather(w, opts, blocks[..n])
    decreases |blocks| - n
  {
    if n < |blocks| {
      assert blocks[..n + 1][..n] == blocks[..n];
      StoppedStays(w, opts, blocks, n + 1);
    } else {
      assert blocks[..n] == blocks;
    }
  }

  // ----- What a pass does to the body -----

  /** The locator's promise: every block is a range of the body, and no two overlap. */
  predicate Located(body: Bytes, blocks: seq<LiveBlock>) {
    && (forall i :: 0 <= i < |blocks| ==> 0 <= blocks[i].start < blocks[i].end <= |body|)
    && (forall i, j :: 0 <= i < j < |blocks| ==> blocks[i].end <= blocks[j].start || blocks[j].end <= blocks[i].start)
  }

  /** Every replacement is of some block, and shorter than the range it replaces. */
  predicate FromBlocks(reps: seq<Replacement>, blocks: seq<LiveBlock>) {
    forall r :: r in reps ==>
      |r.text| < r.end - r.start && exists b :: b in blocks && b.start == r.start && b.end == r.end
  }

  lemma {:induction false} GatheredFromBlocks(body: Bytes, w: World, opts: Options, blocks: seq<LiveBlock>)
    requires Located(body, blocks) && Gather(w, opts, blocks).Going?
    ensures (var got := Gather(w, opts, blocks).got;
             FromBlocks(got.reps, blocks) && Separate(body, got.reps) && |got.applied| == |got.reps|)
  {
    hide PartOf, Located, Separate;
    if blocks != [] {
      var n := |blocks| - 1;
      EarlierAreLocated(body, blocks);
      GatheredFromBlocks(body, w, opts, blocks[..n]);
      var before := Gather(w, opts, blocks[..n]).got;
      var part := PartOf(w, opts, blocks[n], n);
      if part.Replaced? {
        PartIsShorter(w, opts, blocks[n], n);
        OneMoreStaysSeparate(body, blocks, before.reps, part.rep);
      }
      assert forall b :: b in blocks[..n] ==> b in blocks;
      assert blocks[n] in blocks;
    } else {
      NothingIsSeparate(body);
    }
  }

  lemma EarlierAreLocated(body: Bytes, blocks: seq<LiveBlock>)
    requires Located(body, blocks) && blocks != []
    ensures Located(body, blocks[..|blocks| - 1])
  {
  }

  lemma NothingIsSeparate(body: Bytes)
    ensures Separate(body, [])
  {
  }

  lemma PartIsShorter(w: World, opts: Options, blk: LiveBlock, i: nat)
    ensures (var part := PartOf(w, opts, blk, i);
             part.Replaced? ==> part.rep.start == blk.start && part.rep.end == blk.end
                                && |part.rep.text| < blk.end - blk.start)
  {
    hide Try;
  }

  lemma OneMoreStaysSeparate(body: Bytes, blocks: seq<LiveBlock>, reps: seq<Replacement>, r: Replacement)
    requires blocks != [] && Located(body, blocks) && Separate(body, reps) && FromBlocks(reps, blocks[..|blocks| - 1])
    requires r.start == blocks[|blocks| - 1].start && r.end == blocks[|blocks| - 1].end
    ensures Separate(body, reps + [r])
  {
    var n := |blocks| - 1;
    forall i | 0 <= i < |reps|
      ensures reps[i].end <= r.start || r.end <= reps[i].start
    {
      assert reps[i] in reps;
      var b :| b in blocks[..n] && b.start == reps[i].start && b.end == reps[i].end;
      var k :| 0 <= k < n && blocks[k] == b;
    }
  }

  lemma {:induction false} ShorterShrinks(reps: seq<Replacement>)
    requires reps != [] && forall r :: r in reps ==> |r.text| < r.end - r.start
    ensures TotalGrowth(reps) < 0
  {
    assert reps[0] in reps;
    if |reps| > 1 {
      assert forall r :: r in reps[1..] ==> r in reps;
      ShorterShrinks(reps[1..]);
    }
  }

  /**
   For disjoint located ranges, a pass either gives the body back untouched or a
   strictly shorter one, that is the body with the chosen blocks' ranges replaced and
   every other byte kept, by exactly the bytes the replacements save, in whatever order
   the splice is handed them.
   */
  lemma PassOnlyShortens(body: Bytes, w: World, opts: Options, blocks: seq<LiveBlock>, got: Gathered,
                         sorted: seq<Replacement>)
    requires Located(body, blocks) && Verdict(w, opts, blocks) == Going(got) && IsArrangement(sorted, got.reps)
    ensures (var out := Spliced(body, 0, sorted);
             && IsSplice(body, got.reps, out) && FromBlocks(got.reps, blocks)
             && |out| < |body| && |out| == |body| + TotalGrowth(got.reps)
             && got.reps != [] && |got.applied| == |got.reps|
             && forall other :: IsArrangement(other, got.reps) ==> Spliced(body, 0, other) == out)
  {
    hide Located, Gather, Separate;
    GatheredFromBlocks(body, w, opts, blocks);
    SpliceIsPointwise(body, sorted, got.reps);
    ShorterShrinks(got.reps);
    forall other | IsArrangement(other, got.reps)
      ensures Spliced(body, 0, other) == Spliced(body, 0, sorted)
    {
      ArrangementIsUnique(body, sorted, other, got.reps);
    }
  }

  /** A block is replaced only by something shorter both decoded and encoded, by a compressor its content type has. */
  lemma OnlyShorterFormsAreTaken(w: World, opts: Options, blk: LiveBlock, i: nat)
    requires PartOf(w, opts, blk, i).Replaced?
    ensures !w.deadline.beforeBlock(i) && |blk.text| >= opts.minBlockBytes && w.detect(blk.text).Chain?
    ensures exists c, text ::
              && c in w.detect(blk.text).compressors && c.compress(blk.text) == Output(text) && |text| < |blk.text|
              && w.encode(text) == Some(PartOf(w, opts, blk, i).rep.text) && |PartOf(w, opts, blk, i).rep.text| < blk.end - blk.start
  {
    var chain := w.detect(blk.text).compressors;
    var won := Try(w, chain, blk.text, i, 0);
    WinnerIsShorter(w, chain, blk.text, i, 0);
  }

  lemma {:induction false} WinnerIsShorter(w: World, chain: seq<Compressor>, text: Bytes, i: nat, j: nat)
    requires j <= |chain| && Try(w, chain, text, i, j).Won?
    ensures (var won := Try(w, chain, text, i, j);
             |won.text| < |text| && exists c :: c in chain && c.compress(text) == Output(won.text) && c.name == won.name)
    decreases |chain| - j
  {
    var r := chain[j].compress(text);
    if r.Output? && |r.text| < |text| {
      assert chain[j] in chain;
    } else {
      WinnerIsShorter(w, chain, text, i, j + 1);
    }
  }

  // ----- The tokens a pass reports -----

  /** The bytes of text each replacement saves. */
  function Savings(w: World, opts: Options, blocks: seq<LiveBlock>): seq<nat> {
    if blocks == [] then []
    else
      var n := |blocks| - 1;
      Savings(w, opts, blocks[..n]) + if PartOf(w, opts, blocks[n], n).Replaced? then [SavingOf(w, opts, blocks[n], n)] else []
  }

  function SavingOf(w: World, opts: Options, blk: LiveBlock, i: nat): nat
    requires PartOf(w, opts, blk, i).Replaced?
  {
    var won := Try(w, w.detect(blk.text).compressors, blk.text, i, 0);
    if |won.text| <= |blk.text| then |blk.text| - |won.text| else 0
  }

  function Sum(xs: seq<nat>): nat {
    if xs == [] then 0 else Sum(xs[..|xs| - 1]) + xs[|xs| - 1]
  }

  /** What integer division by four leaves over, block by block. */
  function Leftovers(xs: seq<nat>): nat {
    if xs == [] then 0 else Leftovers(xs[..|xs| - 1]) + xs[|xs| - 1] % 4
  }

  function Quarters(xs: seq<nat>): nat {
    if xs == [] then 0 else Quarters(xs[..|xs| - 1]) + xs[|xs| - 1] / 4
  }

  lemma {:induction false} SumInQuarters(xs: seq<nat>)
    ensures Sum(xs) == 4 * Quarters(xs) + Leftovers(xs)
  {
    if xs != [] {
      SumInQuarters(xs[..|xs| - 1]);
    }
  }

  lemma QuartersOfOneMore(xs: seq<nat>, x: nat)
    ensures Quarters(xs + [x]) == Quarters(xs) + x / 4
  {
    assert (xs + [x])[..|xs|] == xs;
  }

  lemma {:induction false} TokensAreQuarters(w: World, opts: Options, blocks: seq<LiveBlock>)
    requires Gather(w, opts, blocks).Going?
    ensures Gather(w, opts, blocks).got.tokens == Quarters(Savings(w, opts, blocks))
  {
    hide PartOf, Quarters, SavingOf;
    if blocks != [] {
      var n := |blocks| - 1;
      TokensAreQuarters(w, opts, blocks[..n]);
      if PartOf(w, opts, blocks[n], n).Replaced? {
        PartSaves(w, opts, blocks[n], n);
        QuartersOfOneMore(Savings(w, opts, blocks[..n]), SavingOf(w, opts, blocks[n], n));
      } else {
        assert Savings(w, opts, blocks) == Savings(w, opts, blocks[..n]);
      }
    } else {
      assert Quarters([]) == 0 by { NoQuarters(); }
    }
  }

  lemma NoQuarters()
    ensures Quarters([]) == 0
  {
  }

  lemma PartSaves(w: World, opts: Options, blk: LiveBlock, i: nat)
    requires PartOf(w, opts, blk, i).Replaced?
    ensures PartOf(w, opts, blk, i).tokens == SavingOf(w, opts, blk, i) / 4
  {
    WinnerIsShorter(w, w.detect(blk.text).compressors, blk.text, i, 0);
    hide Try;
  }

  /**
   The tokens a pass reports, added up block by block, are a quarter of the bytes
   of text it saves if and only if what the divisions leave over comes to less
   than one token.
   */
  lemma TokensAreAQuarterExactlyWhen(w: World, opts: Options, blocks: seq<LiveBlock>)
    requires Gather(w, opts, blocks).Going?
    ensures (var saved := Savings(w, opts, blocks);
             Gather(w, opts, blocks).got.tokens == Sum(saved) / 4 <==> Leftovers(saved) < 4)
  {
    hide Gather, Savings, Sum, Leftovers, Quarters;
    TokensAreQuarters(w, opts, blocks);
    SumInQuarters(Savings(w, opts, blocks));
  }

  /** A world whose one compressor always answers the same. */
  function AlwaysAnswers(shorter: Bytes): World {
    World(_ => Chain([Compressor("c", _ => Output(shorter))]), t => Some(t), Deadline(_ => false, (_, _) => false, false))
  }

  function TwoBlocks(text: Bytes): seq<LiveBlock> {
    [LiveBlock(text, 0, |text|), LiveBlock(text, |text|, 2 * |text|)]
  }

  /** Two blocks saving three bytes each report nothing, where a quarter of the total is one token. */
  lemma TwoSmallSavingsReportNothing(text: Bytes, shorter: Bytes)
    requires |text| == |shorter| + 3
    ensures (var w, opts, blocks := AlwaysAnswers(shorter), Options(0, 2 * |text|), TwoBlocks(text);
             && Verdict(w, opts, blocks).Going? && Verdict(w, opts, blocks).got.tokens == 0
             && Sum(Savings(w, opts, blocks)) / 4 == 1)
  {
    hide PartOf, AlwaysAnswers, SavingOf, Gather, Savings, TotalText, Sum;
    var w, opts := AlwaysAnswers(shorter), Options(0, 2 * |text|);
    var a, b := TwoBlocks(text)[0], TwoBlocks(text)[1];
    SavesThree(a, shorter, opts, 0);
    SavesThree(b, shorter, opts, 1);
    NothingGathered(w, opts);
    assert [] + [a] == [a] && [a] + [b] == TwoBlocks(text);
    OneMoreReplaced(w, opts, [], a);
    OneMoreReplaced(w, opts, [a], b);
    assert Savings(w, opts, TwoBlocks(text)) == [3, 3];
    ThreeAndThree();
    assert !w.deadline.atEnd by { NeverExpires(shorter); }
  }

  lemma NeverExpires(shorter: Bytes)
    ensures !AlwaysAnswers(shorter).deadline.atEnd
  {
  }

  lemma ThreeAndThree()
    ensures Sum([3, 3]) == 6
  {
    assert [3, 3][..1] == [3] && [3][..0] == [];
  }

  lemma NothingGathered(w: World, opts: Options)
    ensures Gather(w, opts, []) == Going(Gathered([], [], 0, false)) && Savings(w, opts, []) == [] && TotalText([]) == 0
  {
  }

  lemma OneMoreReplaced(w: World, opts: Options, blocks: seq<LiveBlock>, b: LiveBlock)
    requires Gather(w, opts, blocks).Going? && PartOf(w, opts, b, |blocks|).Replaced?
    ensures (var got, part := Gather(w, opts, blocks).got, PartOf(w, opts, b, |blocks|);
             Gather(w, opts, blocks + [b])
             == Going(Gathered(got.reps + [part.rep], got.applied + [part.name], got.tokens + part.tokens, got.gap)))
    ensures Savings(w, opts, blocks + [b]) == Savings(w, opts, blocks) + [SavingOf(w, opts, b, |blocks|)]
    ensures TotalText(blocks + [b]) == TotalText(blocks) + |b.text|
  {
    hide PartOf, SavingOf;
    assert (blocks + [b])[..|blocks|] == blocks;
  }

  lemma SavesThree(blk: LiveBlock, shorter: Bytes, opts: Options, i: nat)
    requires |blk.text| == |shorter| + 3 && blk.end - blk.start == |blk.text| && opts.minBlockBytes == 0
    ensures (var w := AlwaysAnswers(shorter);
             && PartOf(w, opts, blk, i) == Replaced(Replacement(blk.start, blk.end, shorter), "c", 0)
             && SavingOf(w, opts, blk, i) == 3)
  {
    var w := AlwaysAnswers(shorter);
    var chain := w.detect(blk.text).compressors;
    assert chain[0].compress(blk.text) == Output(shorter);
    assert Try(w, chain, blk.text, i, 0) == Won(shorter, "c");
  }
}
