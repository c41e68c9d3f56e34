/**
 Which blocks a compression pass replaces, by which compressor, and why it skips: by
 what the compressors, the detector and the clock answer, gate by gate.
 */
module Gates {
  import opened Wrappers
  import opened Splice
  import opened Compress

  // ----- One chain -----

  /** A compressor that is passed over: it failed in good time, or gave nothing shorter. */
  predicate PassedOver(w: World, chain: seq<Compressor>, text: Bytes, i: nat, j: nat)
    requires j < |chain|
  {
    var r := chain[j].compress(text);
    (r == Failed && !w.deadline.afterError(i, j)) || (r.Output? && |r.text| >= |text|)
  }

  /** The first compressor that is not passed over. */
  predicate IsDecisive(w: World, chain: seq<Compressor>, text: Bytes, i: nat, from: nat, j: nat) {
    && from <= j < |chain| && !PassedOver(w, chain, text, i, j)
    && forall k :: from <= k < j ==> PassedOver(w, chain, text, i, k)
  }

  /** The chain's outcome is that compressor's: a win, a panic, or an error that came too late; without one nobody wins. */
  lemma {:induction false} FirstDecides(w: World, chain: seq<Compressor>, text: Bytes, i: nat, from: nat) returns (j: nat)
    requires from <= |chain|
    ensures j == |chain| || IsDecisive(w, chain, text, i, from, j)
    ensures j == |chain| ==> Try(w, chain, text, i, from) == NoneWon && forall k :: from <= k < |chain| ==> PassedOver(w, chain, text, i, k)
    ensures j < |chain| ==>
              Try(w, chain, text, i, from)
              == if chain[j].compress(text) == Blew then Exploded
                 else if chain[j].compress(text) == Failed then Expired
                 else Won(chain[j].compress(text).text, chain[j].name)
    decreases |chain| - from
  {
    if from == |chain| || !PassedOver(w, chain, text, i, from) {
      j := from;
    } else {
      j := FirstDecides(w, chain, text, i, from + 1);
    }
  }

  lemma DecidesOnce(w: World, chain: seq<Compressor>, text: Bytes, i: nat, j: nat, k: nat)
    requires IsDecisive(w, chain, text, i, 0, k)
    requires IsDecisive(w, chain, text, i, 0, j) || forall m :: 0 <= m < |chain| ==> PassedOver(w, chain, text, i, m)
    ensures j == k
  {
  }

  /** What a chain comes to, each way exactly when: failing and unhelpful compressors are passed over. */
  lemma ChainOutcomeExactlyWhen(w: World, chain: seq<Compressor>, text: Bytes, i: nat, shorter: Bytes, name: string)
    ensures Try(w, chain, text, i, 0) == Won(shorter, name)
       <==> exists j: nat :: IsDecisive(w, chain, text, i, 0, j) && chain[j].compress(text) == Output(shorter) && chain[j].name == name
    ensures Try(w, chain, text, i, 0) == NoneWon <==> forall j :: 0 <= j < |chain| ==> PassedOver(w, chain, text, i, j)
    ensures Try(w, chain, text, i, 0) == Exploded <==> exists j: nat :: IsDecisive(w, chain, text, i, 0, j) && chain[j].compress(text) == Blew
    ensures Try(w, chain, text, i, 0) == Expired <==> exists j: nat :: IsDecisive(w, chain, text, i, 0, j) && chain[j].compress(text) == Failed
  {
    hide Try;
    var j := FirstDecides(w, chain, text, i, 0);
    forall k: nat | IsDecisive(w, chain, text, i, 0, k) ensures k == j {
      DecidesOnce(w, chain, text, i, j, k);
    }
  }

  // ----- One block -----

  /** The block is tried: in time, long enough, and with a chain for its content. */
  predicate IsTried(w: World, opts: Options, blk: LiveBlock, i: nat) {
    !w.deadline.beforeBlock(i) && |blk.text| >= opts.minBlockBytes && w.detect(blk.text).Chain?
  }

  /** Compressor `j` of the chain wins, under a name, with a form whose encoding is shorter than the range. */
  predicate IsReplacedBy(w: World, opts: Options, blk: LiveBlock, i: nat, j: nat) {
    && IsTried(w, opts, blk, i)
    && IsDecisive(w, w.detect(blk.text).compressors, blk.text, i, 0, j)
    && var c := w.detect(blk.text).compressors[j];
       var r := c.compress(blk.text);
       && r.Output? && c.name != ""
       && w.encode(r.text).Some? && |w.encode(r.text).value| < blk.end - blk.start
  }

  /** Exactly when a block is replaced, and by what. */
  lemma BlockIsReplacedExactlyWhen(w: World, opts: Options, blk: LiveBlock, i: nat)
    ensures PartOf(w, opts, blk, i).Replaced? <==> exists j: nat :: IsReplacedBy(w, opts, blk, i, j)
    ensures forall j: nat :: IsReplacedBy(w, opts, blk, i, j) ==>
              (var c := w.detect(blk.text).compressors[j];
               var shorter := c.compress(blk.text).text;
               PartOf(w, opts, blk, i)
               == Replaced(Replacement(blk.start, blk.end, w.encode(shorter).value), c.name, (|blk.text| - |shorter|) / 4))
  {
    hide Try;
    if IsTried(w, opts, blk, i) {
      hide IsDecisive;
      var chain := w.detect(blk.text).compressors;
      var first := FirstDecides(w, chain, blk.text, i, 0);
      forall j: nat | IsDecisive(w, chain, blk.text, i, 0, j) ensures j == first {
        DecidesOnce(w, chain, blk.text, i, first, j);
      }
      if first < |chain| && chain[first].compress(blk.text).Output? {
        DecisiveIsShorter(w, chain, blk.text, i, first);
        assert PartOf(w, opts, blk, i).Replaced? <==> IsReplacedBy(w, opts, blk, i, first);
      }
    }
  }

  lemma DecisiveIsShorter(w: World, chain: seq<Compressor>, text: Bytes, i: nat, j: nat)
    requires IsDecisive(w, chain, text, i, 0, j) && chain[j].compress(text).Output?
    ensures |chain[j].compress(text).text| < |text|
  {
  }

  /** Exactly when a block's content has no compressor, and when it ends the pass. */
  lemma BlockStopsExactlyWhen(w: World, opts: Options, blk: LiveBlock, i: nat)
    ensures PartOf(w, opts, blk, i) == Gap
       <==> !w.deadline.beforeBlock(i) && |blk.text| >= opts.minBlockBytes && w.detect(blk.text) == NoCompressor
    ensures PartOf(w, opts, blk, i) == Halted(Timeout)
       <==> || w.deadline.beforeBlock(i)
            || (IsTried(w, opts, blk, i) && exists j: nat :: IsDecisive(w, w.detect(blk.text).compressors, blk.text, i, 0, j)
                                               && w.detect(blk.text).compressors[j].compress(blk.text) == Failed)
    ensures PartOf(w, opts, blk, i) == Halted(FailOpen)
       <==> && !w.deadline.beforeBlock(i) && |blk.text| >= opts.minBlockBytes
            && (|| w.detect(blk.text) == DetectorBlew
                || (IsTried(w, opts, blk, i) && exists j: nat :: IsDecisive(w, w.detect(blk.text).compressors, blk.text, i, 0, j)
                                                   && w.detect(blk.text).compressors[j].compress(blk.text) == Blew))
    ensures PartOf(w, opts, blk, i).Halted? ==> PartOf(w, opts, blk, i).reason == Timeout || PartOf(w, opts, blk, i).reason == FailOpen
  {
    hide Try, IsDecisive;
    if IsTried(w, opts, blk, i) {
      ChainOutcomeExactlyWhen(w, w.detect(blk.text).compressors, blk.text, i, [], "");
    }
  }

  // ----- The pass -----

  /** What each block comes to. */
  function Parts(w: World, opts: Options, blocks: seq<LiveBlock>): (parts: seq<Part>)
    ensures |parts| == |blocks|
    ensures forall i: nat :: i < |blocks| ==> parts[i] == PartOf(w, opts, blocks[i], i)
  {
    seq(|blocks|, i requires 0 <= i < |blocks| => PartOf(w, opts, blocks[i], i))
  }

  lemma PartsOneMore(w: World, opts: Options, blocks: seq<LiveBlock>)
    requires blocks != []
    ensures (var n := |blocks| - 1;
             Parts(w, opts, blocks) == Parts(w, opts, blocks[..n]) + [PartOf(w, opts, blocks[n], n)])
  {
    hide PartOf;
  }

  predicate IsReplaced(part: Part) {
    part.Replaced?
  }

  /** What was gathered: the replacement and the compressor's name of each of these parts, in order. */
  predicate Gathers(got: Gathered, picked: seq<Part>) {
    && |got.reps| == |got.applied| == |picked|
    && forall k :: 0 <= k < |picked| ==> picked[k].Replaced? && got.reps[k] == picked[k].rep && got.applied[k] == picked[k].name
  }

  lemma GathersOneMore(got: Gathered, picked: seq<Part>, part: Part)
    requires Gathers(got, picked) && part.Replaced?
    ensures Gathers(Gathered(got.reps + [part.rep], got.applied + [part.name], got.tokens + part.tokens, got.gap), picked + [part])
  {
  }

  /** The pass goes on as long as no block halts it, and has then gathered exactly the blocks that are replaced, in order. */
  lemma {:induction false} GatheredExactly(w: World, opts: Options, blocks: seq<LiveBlock>) returns (picked: seq<Part>)
    ensures Gather(w, opts, blocks).Going? <==> forall part :: part in Parts(w, opts, blocks) ==> !part.Halted?
    ensures Gather(w, opts, blocks).Going? ==>
              && IsFilter(picked, Parts(w, opts, blocks), IsReplaced) && Gathers(Gather(w, opts, blocks).got, picked)
              && (Gather(w, opts, blocks).got.gap <==> Gap in Parts(w, opts, blocks))
    ensures Gather(w, opts, blocks).Stopped? ==> Halted(Gather(w, opts, blocks).reason) in Parts(w, opts, blocks)
  {
    hide PartOf, IsFilter, Gathers, Parts;
    picked := [];
    if blocks == [] {
      assert Parts(w, opts, []) == [];
      NothingFiltered<Part>(IsReplaced);
      assert Gathers(Gathered([], [], 0, false), []) by { NothingGathers(); }
    } else {
      var n := |blocks| - 1;
      var part := PartOf(w, opts, blocks[n], n);
      var before := GatheredExactly(w, opts, blocks[..n]);
      PartsOneMore(w, opts, blocks);
      if Gather(w, opts, blocks).Going? {
        FilterOneMore(before, Parts(w, opts, blocks[..n]), part, IsReplaced);
        picked := before + if IsReplaced(part) then [part] else [];
        if part.Replaced? {
          GathersOneMore(Gather(w, opts, blocks[..n]).got, before, part);
        } else {
          assert picked == before;
          SameReplacements(Gather(w, opts, blocks[..n]).got, Gather(w, opts, blocks).got, before);
        }
      }
    }
  }

  lemma NothingGathers()
    ensures Gathers(Gathered([], [], 0, false), [])
  {
  }

  lemma SameReplacements(got: Gathered, after: Gathered, picked: seq<Part>)
    requires Gathers(got, picked) && after.reps == got.reps && after.applied == got.applied
    ensures Gathers(after, picked)
  {
  }

  /** Why a pass skips, each reason exactly when. */
  lemma SkipsExactlyWhen(w: World, opts: Options, blocks: seq<LiveBlock>)
    ensures (var v, parts := Verdict(w, opts, blocks), Parts(w, opts, blocks);
             var oversized, halted := TotalText(blocks) > opts.maxLiveZoneBytes, exists part :: part in parts && part.Halted?;
             if blocks == [] then v == Stopped(NoLiveZone)
             else if oversized then v == Stopped(TotalSizeExceeded)
             else if halted then v.Stopped? && Halted(v.reason) in parts
             else if w.deadline.atEnd then v == Stopped(Timeout)
             else
               && (v.Going? <==> exists part :: part in parts && part.Replaced?)
               && (v == Stopped(NoMatchingCompressor) <==> Gap in parts && forall part :: part in parts ==> !part.Replaced?)
               && (v == Stopped(NoEffectiveReplacement) <==> Gap !in parts && forall part :: part in parts ==> !part.Replaced?))
  {
    hide PartOf, Gather, TotalText, Parts;
    var picked := GatheredExactly(w, opts, blocks);
    if Gather(w, opts, blocks).Going? {
      FilterIsEmpty(picked, Parts(w, opts, blocks), IsReplaced);
    }
  }

  /** The total is that of all the blocks' texts, wherever the list is cut. */
  lemma {:induction false} TotalOfConcat(a: seq<LiveBlock>, b: seq<LiveBlock>)
    ensures TotalText(a + b) == TotalText(a) + TotalText(b)
    ensures |a| == 1 ==> TotalText(a) == |a[0].text|
  {
    if b == [] {
      assert a + b == a;
    } else {
      assert (a + b)[..|a + b| - 1] == a + b[..|b| - 1];
      TotalOfConcat(a, b[..|b| - 1]);
    }
    if |a| == 1 {
      assert a[..0] == [] && TotalText(a[..0]) == 0;
    }
  }
}
