/** What callers of the phrase splitter can rely on, in samples. */
module PhraseTheorems {
  import opened Wrappers
  import opened Segmentation
  import opened SegmentationLaws
  import opened SegmentationTheorems
  import opened PhraseSplitting
  import opened SilenceGate

  /** The variables that any later call can read. */
  function Live(v: Fields): Fields { if v.inPhrase then v else v.(phraseStart := 0) }

  lemma FrameCountIsUnique(fl: nat, total: nat, n: nat, m: nat)
    requires n * fl <= total < (n + 1) * fl && m * fl <= total < (m + 1) * fl
    ensures n == m
  {
    if n < m { Scale(n + 1, m, fl); }
    if m < n { Scale(m + 1, n, fl); }
  }

  /** Two splitters that were fed the same samples, in whatever chunks, are in the
      same state. */
  lemma HistoryDecides(c: Config, energy: Energy, fl: nat, h: seq<Sample>, n: nat, m: nat, v: Fields, w: Fields)
    requires Matches(c, energy, fl, h, n, n, v) && |h| < (n + 1) * fl
    requires Matches(c, energy, fl, h, m, m, w) && |h| < (m + 1) * fl
    ensures n == m && Live(v) == Live(w)
  {
    FrameCountIsUnique(fl, |h|, n, m);
    assert v.buffer == w.buffer;
    assert v.energies == w.energies;
  }

  function Concat(chunks: seq<seq<Sample>>): seq<Sample>
    decreases |chunks|
  {
    if chunks == [] then [] else Concat(chunks[..|chunks| - 1]) + chunks[|chunks| - 1]
  }

  /** Feeds one chunk after the other. */
  method FeedAll(p: PhraseSplitter, chunks: seq<seq<Sample>>) returns (out: seq<seq<Sample>>)
    requires p.Valid()
    modifies p
    ensures p.Valid() && p.history == old(p.history) + Concat(chunks)
    ensures p.Emitted() == old(p.Emitted()) + out
  {
    hide Matches, Phrases;
    out := [];
    assert p.history + Concat([]) == p.history;
    for i := 0 to |chunks|
      invariant p.Valid() && p.history == old(p.history) + Concat(chunks[..i])
      invariant p.Emitted() == old(p.Emitted()) + out
    {
      assert chunks[..i + 1][..i] == chunks[..i];
      var more := p.Feed(chunks[i]);
      out := out + more;
    }
    assert chunks[..|chunks|] == chunks;
  }

  lemma FramesFit(p: PhraseSplitter)
    requires p.Valid()
    ensures p.frameLen >= 1 && p.frames * p.frameLen <= |p.history| < (p.frames + 1) * p.frameLen
  {}

  lemma WholeFrames(fl: nat, total: nat)
    requires fl >= 1
    ensures total / fl * fl <= total < (total / fl + 1) * fl
  {}

  /** A fresh splitter fed with `chunks`: what it emitted, its state then, what a flush
      adds, and how many whole frames there were. */
  method SplitChunks(frameLen: nat, threshold: real, split: nat, minSpeech: nat, maxPhrase: nat, pad: nat, quiet: nat,
                     energy: Energy, chunks: seq<seq<Sample>>)
    returns (out: seq<seq<Sample>>, state: Fields, rest: Option<seq<Sample>>, n: nat)
    ensures var c := Clamped(threshold, split, minSpeech, maxPhrase, pad, quiet);
            var fl, h := Max(frameLen, 1), Concat(chunks);
            && Matches(c, energy, fl, h, n, n, state) && |h| < (n + 1) * fl
            && out == Phrases(c, energy, fl, h, n) && rest == Rest(c, energy, fl, h, n)
  {
    hide Matches, Rest, Phrases;
    var p := new PhraseSplitter.WithParams(frameLen, threshold, split, minSpeech, maxPhrase, pad, quiet, energy);
    NothingEmitted(p);
    out := FeedAll(p, chunks);
    assert p.history == Concat(chunks);
    state := Fields(p.buffer, p.energies, p.inPhrase, p.emitStartFrame, p.phraseStartFrame, p.speechFrames,
                    p.trailingSilence);
    n := |Concat(chunks)| / p.frameLen;
    FramesFit(p);
    WholeFrames(p.frameLen, |p.history|);
    FrameCountIsUnique(p.frameLen, |p.history|, n, p.frames);
    rest := p.Flush();
  }

  lemma NothingEmitted(p: PhraseSplitter)
    requires p.Valid() && p.history == []
    ensures p.Emitted() == []
  {
    var n, fl := p.frames, p.frameLen;
    if n > 0 { Scale(1, n, fl); }
  }

  /** However a recording is cut into chunks, the splitter emits the same phrases, is
      left in the same state, and flushes the same rest. */
  method AnyChunking(frameLen: nat, threshold: real, split: nat, minSpeech: nat, maxPhrase: nat, pad: nat, quiet: nat,
                     energy: Energy, xs: seq<seq<Sample>>, ys: seq<seq<Sample>>)
    returns (fromXs: seq<seq<Sample>>, fromYs: seq<seq<Sample>>, stateXs: Fields, stateYs: Fields,
             restXs: Option<seq<Sample>>, restYs: Option<seq<Sample>>)
    requires Concat(xs) == Concat(ys)
    ensures fromXs == fromYs && Live(stateXs) == Live(stateYs) && restXs == restYs
  {
    hide Matches, Rest, Phrases, Live, Concat, Clamped;
    var n, m;
    fromXs, stateXs, restXs, n := SplitChunks(frameLen, threshold, split, minSpeech, maxPhrase, pad, quiet, energy, xs);
    fromYs, stateYs, restYs, m := SplitChunks(frameLen, threshold, split, minSpeech, maxPhrase, pad, quiet, energy, ys);
    HistoryDecides(Clamped(threshold, split, minSpeech, maxPhrase, pad, quiet), energy, Max(frameLen, 1), Concat(xs),
                   n, m, stateXs, stateYs);
  }

  /** The emitted phrases are those of the offline segmentation of the recording. */
  lemma PhrasesAreOffline(c: Config, energy: Energy, fl: nat, h: seq<Sample>, n: nat)
    requires c.Valid() && n * fl <= |h|
    ensures Within(Offline(c, Energies(energy, fl, h, n), 0, INITIAL).pieces, n)
    ensures Phrases(c, energy, fl, h, n) == Slices(h, fl, n, Offline(c, Energies(energy, fl, h, n), 0, INITIAL).pieces)
  {
    var e := Energies(energy, fl, h, n);
    ScanWithin(c, e, n);
    OfflineAgrees(c, e);
  }

  /** `phrase` is the frames of `p` cut out of `h`, or all samples from `p` on. */
  predicate CutFrom(h: seq<Sample>, fl: nat, p: Piece, toEnd: bool, phrase: seq<Sample>) {
    0 <= p.lo * fl <= p.hi * fl <= |h| && phrase == if toEnd then h[p.lo * fl..] else h[p.lo * fl..p.hi * fl]
  }

  lemma SliceIsCut(h: seq<Sample>, fl: nat, p: Piece)
    requires p.lo <= p.hi && p.hi * fl <= |h|
    ensures CutFrom(h, fl, p, false, Slice(h, fl, p.lo, p.hi))
  {
    Scale(p.lo, p.hi, fl);
  }

  lemma LastSlice(h: seq<Sample>, fl: nat, n: nat, ps: seq<Piece>)
    requires n * fl <= |h| && Within(ps, n) && ps != []
    ensures var p, all, front := ps[|ps| - 1], Slices(h, fl, n, ps), Slices(h, fl, n, ps[..|ps| - 1]);
            if p.kept then |all| == |front| + 1 && front == all[..|front|] && CutFrom(h, fl, p, false, all[|front|])
            else all == front
  {
    var p := ps[|ps| - 1];
    Scale(p.hi, n, fl);
    SliceIsCut(h, fl, p);
    hide Slice, CutFrom;
  }

  lemma {:induction false} EachSlice(h: seq<Sample>, fl: nat, n: nat, ps: seq<Piece>, j: nat) returns (k: nat)
    requires n * fl <= |h| && Within(ps, n) && j < |Slices(h, fl, n, ps)|
    ensures k < |ps| && ps[k].kept && CutFrom(h, fl, ps[k], false, Slices(h, fl, n, ps)[j])
    ensures |Slices(h, fl, n, ps)| - j <= |ps| - k
  {
    assert ps != [];
    LastSlice(h, fl, n, ps);
    hide Slices, CutFrom;
    var front := ps[..|ps| - 1];
    if j < |Slices(h, fl, n, front)| {
      k := EachSlice(h, fl, n, front, j);
    } else {
      k := |ps| - 1;
    }
  }

  /** Every emitted phrase is a slice of the fed samples, at most
      `maxPhrase + pad` frames long and never shorter than `ShortestPhrase`. */
  lemma PhraseBounds(c: Config, energy: Energy, fl: nat, h: seq<Sample>, n: nat, j: nat) returns (lo: nat, hi: nat)
    requires c.Valid() && n * fl <= |h| && j < |Phrases(c, energy, fl, h, n)|
    ensures lo <= hi <= |h| && Phrases(c, energy, fl, h, n)[j] == h[lo..hi]
    ensures ShortestPhrase(c) * fl <= hi - lo <= (c.maxPhrase + c.pad) * fl
  {
    var e := Energies(energy, fl, h, n);
    var ps := ScanOf(c, e, n).pieces;
    ScanWithin(c, e, n);
    var k := EachSlice(h, fl, n, ps, j);
    PhraseSizes(c, e, n);
    lo, hi := ps[k].lo * fl, ps[k].hi * fl;
    var len := ps[k].hi - ps[k].lo;
    Scale(ps[k].lo, ps[k].hi, fl);
    Scale(ShortestPhrase(c), len, fl);
    Scale(len, c.maxPhrase + c.pad, fl);
  }

  /** A flush returns all frames from the base up to the end of speech, at least. */
  lemma RestFrames(c: Config, e: seq<real>, n: nat, s: Scan, end: nat)
    requires c.Valid() && n <= |e| && s == ScanOf(c, e, n) && s.speaking
    requires n - Trailing(c, e, s.base, n) <= end
    ensures Voiced(c, e, s.base, n) <= end - s.base && n + 1 - s.base <= c.maxPhrase + c.pad
  {
    var t := Trailing(c, e, s.base, n);
    PhraseSizes(c, e, n);
    VoicedSplit(c, e, s.base, n - t, n);
    TrailingSilence(c, e, s.base, n);
    VoicedZero(c, e, n - t, n);
  }

  /** So is the phrase returned by a flush. */
  lemma RestBounds(c: Config, energy: Energy, fl: nat, h: seq<Sample>, n: nat)
    requires c.Valid() && fl >= 1 && n * fl <= |h| < (n + 1) * fl
    ensures Rest(c, energy, fl, h, n).Some? ==>
              c.minSpeech * fl <= |Rest(c, energy, fl, h, n).value| < (c.maxPhrase + c.pad) * fl
  {
    hide Energies, ScanOf, Voiced, Trailing;
    if Rest(c, energy, fl, h, n).None? { return; }
    var e := Energies(energy, fl, h, n);
    var s := ScanOf(c, e, n);
    var t := Trailing(c, e, s.base, n);
    var end := if t > c.pad then n - t + c.pad else n;
    RestFrames(c, e, n, s, end);
    Scale(s.base, n + 1, fl);
    Scale(n + 1 - s.base, c.maxPhrase + c.pad, fl);
    Scale(s.base, end, fl);
    Scale(end, n, fl);
    Scale(c.minSpeech, end - s.base, fl);
  }

  lemma PieceInSamples(c: Config, e: seq<real>, base: nat, n: nat, fl: nat, total: nat)
    requires base <= n <= |e| && n * fl <= total
    ensures var p := ClosedPiece(c, e, base, n);
            p.lo == base && base * fl <= p.hi * fl <= total
  {
    var p := ClosedPiece(c, e, base, n);
    hide ClosedPiece;
    Scale(base, p.hi, fl);
    Scale(p.hi, n, fl);
  }

  /** The phrase a flush returns is the last piece of the recording, with the samples of
      an incomplete frame if it goes up to the end. */
  lemma RestIsLastPiece(c: Config, energy: Energy, fl: nat, h: seq<Sample>, n: nat)
    requires c.Valid() && n * fl <= |h|
    ensures var e := Energies(energy, fl, h, n);
            var s := ScanOf(c, e, n);
            var p := ClosedPiece(c, e, s.base, n);
            var rest := Rest(c, energy, fl, h, n);
            && (rest.Some? <==> s.speaking && p.kept)
            && p.lo == s.base && p.lo * fl <= p.hi * fl <= |h|
            && (rest.Some? ==> CutFrom(h, fl, p, p.hi >= n, rest.value))
  {
    var e := Energies(energy, fl, h, n);
    var s := ScanOf(c, e, n);
    PieceInSamples(c, e, s.base, n, fl, |h|);
    ClosedPieceEnds(c, e, s.base, n);
    RestUnfolds(c, energy, fl, h, n);
    hide Energies, ScanOf, Voiced, Trailing, ClosedPiece, Rest, CutFrom;
    var p := ClosedPiece(c, e, s.base, n);
    var rest := Rest(c, energy, fl, h, n);
    if rest.Some? { CutAt(h, fl, p, p.hi >= n, if p.hi < n then p.hi * fl else |h|, rest.value); }
  }

  lemma CutAt(h: seq<Sample>, fl: nat, p: Piece, toEnd: bool, end: int, phrase: seq<Sample>)
    requires 0 <= p.lo * fl <= p.hi * fl <= |h| && end == if toEnd then |h| else p.hi * fl
    requires phrase == h[p.lo * fl..end]
    ensures CutFrom(h, fl, p, toEnd, phrase)
  {}

  lemma ClosedPieceEnds(c: Config, e: seq<real>, base: nat, n: nat)
    requires base <= n <= |e|
    ensures var p, t := ClosedPiece(c, e, base, n), Trailing(c, e, base, n);
            && p.hi == (if t > c.pad then n - t + c.pad else n)
            && (p.kept <==> Voiced(c, e, base, n) >= c.minSpeech)
  {
    hide Trailing, Voiced;
  }

  // ------------------------------------------------------ the phrases in order

  /** All that a caller is handed: the emitted phrases, and what a flush adds. */
  ghost function Returned(c: Config, energy: Energy, fl: nat, h: seq<Sample>, n: nat): seq<seq<Sample>>
    requires c.Valid() && n * fl <= |h|
  {
    var rest := Rest(c, energy, fl, h, n);
    Phrases(c, energy, fl, h, n) + if rest.Some? then [rest.value] else []
  }

  lemma {:induction false} TwoSlices(h: seq<Sample>, fl: nat, n: nat, ps: seq<Piece>, j: nat, l: nat)
    returns (k: nat, m: nat)
    requires n * fl <= |h| && Within(ps, n) && j < l < |Slices(h, fl, n, ps)|
    ensures k < m < |ps| && ps[k].kept && ps[m].kept && l - j <= m - k
    ensures CutFrom(h, fl, ps[k], false, Slices(h, fl, n, ps)[j])
    ensures CutFrom(h, fl, ps[m], false, Slices(h, fl, n, ps)[l])
  {
    assert ps != [];
    LastSlice(h, fl, n, ps);
    hide Slices, CutFrom;
    var front := ps[..|ps| - 1];
    if l < |Slices(h, fl, n, front)| {
      k, m := TwoSlices(h, fl, n, front, j, l);
    } else {
      k := EachSlice(h, fl, n, front, j);
      m := |ps| - 1;
    }
  }

  /** Two of the returned phrases are two pieces of the recording, in this order. */
  lemma TwoPieces(c: Config, energy: Energy, fl: nat, h: seq<Sample>, n: nat, j: nat, l: nat)
    returns (k: nat, m: nat, toEnd: bool)
    requires c.Valid() && n * fl <= |h| && j < l < |Returned(c, energy, fl, h, n)|
    ensures var ps, all := WholePieces(c, Energies(energy, fl, h, n), n), Returned(c, energy, fl, h, n);
            && k < m < |ps| && ps[k].kept && ps[m].kept && l - j <= m - k
            && CutFrom(h, fl, ps[k], false, all[j]) && CutFrom(h, fl, ps[m], toEnd, all[l])
  {
    var e := Energies(energy, fl, h, n);
    var s := ScanOf(c, e, n);
    ScanWithin(c, e, n);
    if l < |Phrases(c, energy, fl, h, n)| {
      hide Slices, Energies, ScanOf, Rest, CutFrom;
      k, m := TwoSlices(h, fl, n, s.pieces, j, l);
      toEnd := false;
    } else {
      RestIsLastPiece(c, energy, fl, h, n);
      hide Slices, Energies, ScanOf, Rest, CutFrom, ClosedPiece;
      k := EachSlice(h, fl, n, s.pieces, j);
      m := |s.pieces|;
      toEnd := ClosedPiece(c, e, s.base, n).hi >= n;
    }
  }

  lemma {:induction false} KeptIsSliced(h: seq<Sample>, fl: nat, n: nat, ps: seq<Piece>, k: nat) returns (j: nat)
    requires n * fl <= |h| && Within(ps, n) && k < |ps| && ps[k].kept
    ensures j < |Slices(h, fl, n, ps)| && CutFrom(h, fl, ps[k], false, Slices(h, fl, n, ps)[j])
  {
    LastSlice(h, fl, n, ps);
    hide Slices, CutFrom;
    var front := ps[..|ps| - 1];
    if k < |front| {
      j := KeptIsSliced(h, fl, n, front, k);
    } else {
      j := |Slices(h, fl, n, front)|;
    }
  }

  /** No phrase is withheld: every piece of the recording that was kept is returned, in
      full, the last one perhaps with the samples behind it. */
  lemma KeptIsReturned(c: Config, energy: Energy, fl: nat, h: seq<Sample>, n: nat, k: nat) returns (j: nat, toEnd: bool)
    requires c.Valid() && n * fl <= |h|
    requires var ps := WholePieces(c, Energies(energy, fl, h, n), n); k < |ps| && ps[k].kept
    ensures var ps, all := WholePieces(c, Energies(energy, fl, h, n), n), Returned(c, energy, fl, h, n);
            j < |all| && CutFrom(h, fl, ps[k], toEnd, all[j])
  {
    var e := Energies(energy, fl, h, n);
    var s := ScanOf(c, e, n);
    ScanWithin(c, e, n);
    if k < |s.pieces| {
      hide Slices, Energies, ScanOf, Rest, CutFrom;
      j := KeptIsSliced(h, fl, n, s.pieces, k);
      toEnd := false;
    } else {
      RestIsLastPiece(c, energy, fl, h, n);
      hide Slices, Energies, ScanOf, Rest, CutFrom, ClosedPiece;
      j := |Phrases(c, energy, fl, h, n)|;
      toEnd := ClosedPiece(c, e, s.base, n).hi >= n;
    }
  }

  lemma FarApart(lo: nat, hi: nat, start: nat, overlap: nat, fl: nat)
    requires fl >= 1 && lo < hi && lo < start && hi - start <= overlap
    ensures lo * fl < hi * fl && lo * fl < start * fl && hi * fl - start * fl <= overlap * fl
    ensures hi <= start ==> hi * fl <= start * fl
  {
    Scale(lo + 1, hi, fl);
    Scale(lo + 1, start, fl);
    if hi <= start {
      Scale(hi, start, fl);
    } else {
      Scale(start, hi, fl);
      Scale(hi - start, overlap, fl);
    }
  }

  /** The returned phrases, the flushed one included, follow one another in the
      recording: each starts behind the one before, shares at most the padding with it,
      and nothing at all if a pause is twice the padding or if another lies between. */
  lemma ReturnedInOrder(c: Config, energy: Energy, fl: nat, h: seq<Sample>, n: nat, j: nat, l: nat)
    returns (a: nat, b: nat, x: nat, y: nat)
    requires c.Valid() && fl >= 1 && n * fl <= |h| && j < l < |Returned(c, energy, fl, h, n)|
    ensures a < b <= |h| && Returned(c, energy, fl, h, n)[j] == h[a..b]
    ensures x < y <= |h| && Returned(c, energy, fl, h, n)[l] == h[x..y]
    ensures a < x && b - x <= Overlap(c) * fl && (c.split >= 2 * c.pad || j + 1 < l ==> b <= x)
  {
    var e := Energies(energy, fl, h, n);
    var ps := WholePieces(c, e, n);
    var k, m, toEnd := TwoPieces(c, energy, fl, h, n, j, l);
    RecordingInOrder(c, e, n, k, m);
    hide Energies, WholePieces, Returned, Overlap, SilentIn;
    a, b, x, y := ps[k].lo * fl, ps[k].hi * fl, ps[m].lo * fl, if toEnd then |h| else ps[m].hi * fl;
    FarApart(ps[k].lo, ps[k].hi, ps[m].lo, Overlap(c), fl);
    FarApart(ps[m].lo, ps[m].hi, ps[m].hi, 0, fl);
  }

  /** Samples `x..y` of `h` are part of `rest`, which starts at sample `a`. */
  predicate PartOf(h: seq<Sample>, rest: seq<Sample>, a: int, x: int, y: int) {
    0 <= a <= x <= y <= |h| && y - a <= |rest| && rest[x - a..y - a] == h[x..y]
  }

  lemma PartOfSlice(h: seq<Sample>, a: int, b: int, x: int, y: int, whole: bool, rest: seq<Sample>)
    requires 0 <= a <= x <= y <= b <= |h| && rest == if whole then h[a..] else h[a..b]
    ensures PartOf(h, rest, a, x, y)
  {
    assert forall k :: x - a <= k < y - a ==> rest[k] == h[a + k];
    assert rest[x - a..y - a] == h[x..y];
  }

  lemma FrameBounds(base: nat, i: nat, hi: nat, fl: nat)
    requires base <= i < hi
    ensures 0 <= base * fl <= i * fl <= (i + 1) * fl <= hi * fl
  {
    Scale(base, i, fl);
    Scale(i, i + 1, fl);
    Scale(i + 1, hi, fl);
  }

  /** A voiced frame still buffered at the end is returned by the flush, or is one of
      fewer than the frames a phrase needs. */
  lemma FlushKeepsVoiced(c: Config, energy: Energy, fl: nat, h: seq<Sample>, n: nat, i: nat)
    requires c.Valid() && n * fl <= |h| && i < n && !c.Silent(Energies(energy, fl, h, n)[i])
    ensures var e := Energies(energy, fl, h, n);
            var s := ScanOf(c, e, n);
            s.base <= i ==>
              match Rest(c, energy, fl, h, n)
              case None => Voiced(c, e, s.base, n) < c.minSpeech
              case Some(rest) => PartOf(h, rest, s.base * fl, i * fl, (i + 1) * fl)
  {
    var e := Energies(energy, fl, h, n);
    var s := ScanOf(c, e, n);
    hide Energies, ScanOf, Voiced, ClosedPiece, Rest, PartOf;
    if s.base > i { return; }
    BufferedVoiced(c, e, n, i);
    RestIsLastPiece(c, energy, fl, h, n);
    var p := ClosedPiece(c, e, s.base, n);
    var rest := Rest(c, energy, fl, h, n);
    FrameBounds(s.base, i, p.hi, fl);
    if rest.Some? { PartOfSlice(h, s.base * fl, p.hi * fl, i * fl, (i + 1) * fl, p.hi >= n, rest.value); }
  }

  lemma BufferedVoiced(c: Config, e: seq<real>, n: nat, i: nat)
    requires c.Valid() && i < n <= |e| && !c.Silent(e[i]) && ScanOf(c, e, n).base <= i
    ensures var s := ScanOf(c, e, n);
            var p := ClosedPiece(c, e, s.base, n);
            s.speaking && i < p.hi && (p.kept <==> Voiced(c, e, s.base, n) >= c.minSpeech)
  {
    OpenEnd(c, e, n);
    hide ScanOf;
    if ScanOf(c, e, n).speaking { FlushedPiece(c, e, n); }
  }

  /** Between calls the splitter buffers fewer than `maxPhrase + pad` frames. */
  lemma BufferBounded(c: Config, energy: Energy, fl: nat, h: seq<Sample>, n: nat, v: Fields)
    requires Matches(c, energy, fl, h, n, n, v) && |h| < (n + 1) * fl
    ensures |v.buffer| < (c.maxPhrase + c.pad) * fl
  {
    var e := Energies(energy, fl, h, n);
    var s := ScanOf(c, e, n);
    PhraseSizes(c, e, n);
    Scale(s.base, n + 1, fl);
    Scale(n + 1 - s.base, c.maxPhrase + c.pad, fl);
  }

  /** With the production parameters at 16 kHz, no phrase is ever rejected by the
      recogniser's gate as empty or too short. */
  lemma PhrasesPassGate(c: Config, energy: Energy, h: seq<Sample>, n: nat, silent: bool)
    requires c.minSpeech == 3 && c.maxPhrase == 200 && c.pad == 1 && c.quiet == 20 && c.split >= 1
    requires n * 1600 <= |h| < (n + 1) * 1600
    ensures forall j :: 0 <= j < |Phrases(c, energy, 1600, h, n)| ==>
              AudioGateReason(|Phrases(c, energy, 1600, h, n)[j]|, 16000, 300, silent) ==
                if silent then Some(Silent) else None
    ensures Rest(c, energy, 1600, h, n).Some? ==>
              AudioGateReason(|Rest(c, energy, 1600, h, n).value|, 16000, 300, silent) ==
                if silent then Some(Silent) else None
  {
    hide Phrases, Rest;
    forall j: nat | j < |Phrases(c, energy, 1600, h, n)|
      ensures 4800 <= |Phrases(c, energy, 1600, h, n)[j]| <= 321600
    {
      var lo, hi := PhraseBounds(c, energy, 1600, h, n, j);
    }
    RestBounds(c, energy, 1600, h, n);
  }
}
