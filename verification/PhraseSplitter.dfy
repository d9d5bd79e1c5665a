/** Incremental silence-delimited phrase splitter over 16-bit PCM samples.

    The energy of a frame is a parameter: any function from samples to a real
    number.  Everything the splitter keeps is a function of the samples fed since
    it was created or flushed. */
module PhraseSplitting {
  import opened Wrappers
  import opened Segmentation
  import opened SegmentationLaws

  newtype Sample = x: int | -32768 <= x <= 32767

  type Energy = seq<Sample> -> real

  const FRAME_MS := 100
  const PAD_MS := 100
  const MIN_PHRASE_SPEECH_MS := 250
  const MAX_PHRASE_SECS := 20
  const QUIET_SEARCH_MS := 2000

  function DivCeil(a: nat, b: nat): (r: nat)
    requires b > 0
    ensures (r - 1) * b < a <= r * b
  {
    (a + b - 1) / b
  }

  /** The parameters of a splitter, with the lower bounds the constructor enforces. */
  function Clamped(threshold: real, split: nat, minSpeech: nat, maxPhrase: nat, pad: nat, quiet: nat): (c: Config)
    ensures c.Valid()
  {
    Config(threshold, Max(split, 1), Max(minSpeech, 1), Max(maxPhrase, 2), pad, Max(quiet, 1))
  }

  /** Parameters within their bounds are taken as they are, others are raised to them. */
  lemma ClampedIs(threshold: real, split: nat, minSpeech: nat, maxPhrase: nat, pad: nat, quiet: nat, frameLen: nat)
    ensures var c := Clamped(threshold, split, minSpeech, maxPhrase, pad, quiet);
            && c.threshold == threshold && c.pad == pad
            && c.split == (if split == 0 then 1 else split)
            && c.minSpeech == (if minSpeech == 0 then 1 else minSpeech)
            && c.maxPhrase == (if maxPhrase < 2 then 2 else maxPhrase)
            && c.quiet == (if quiet == 0 then 1 else quiet)
    ensures Max(frameLen, 1) == if frameLen == 0 then 1 else frameLen
  {}

  // ------------------------------------------------------------ samples, frames

  lemma Scale(a: nat, b: nat, fl: nat)
    requires a <= b
    ensures a * fl <= b * fl && (b - a) * fl == b * fl - a * fl
  {}

  /** `s` is what is left of `h` after its first `k` elements. */
  predicate TailOf<T(==)>(s: seq<T>, h: seq<T>, k: nat) {
    |s| + k == |h| && forall i :: 0 <= i < |s| ==> s[i] == h[i + k]
  }

  /** The energies of the first `n` frames of `h`. */
  ghost function Energies(energy: Energy, fl: nat, h: seq<Sample>, n: nat): (e: seq<real>)
    requires n * fl <= |h|
    ensures |e| == n
  {
    if n == 0 then []
    else
      Scale(n - 1, n, fl);
      Energies(energy, fl, h, n - 1) + [energy(h[(n - 1) * fl..n * fl])]
  }

  /** The `k`-th energy is that of the `k`-th frame. */
  lemma {:induction false} EnergyOfFrame(energy: Energy, fl: nat, h: seq<Sample>, n: nat, k: nat)
    requires n * fl <= |h| && k < n
    ensures 0 <= k * fl <= (k + 1) * fl <= |h|
    ensures Energies(energy, fl, h, n)[k] == energy(h[k * fl..(k + 1) * fl])
  {
    Scale(n - 1, n, fl);
    Scale(k, k + 1, fl);
    Scale(k + 1, n, fl);
    if k < n - 1 { EnergyOfFrame(energy, fl, h, n - 1, k); }
  }

  lemma {:induction false} EnergiesStay(energy: Energy, fl: nat, h: seq<Sample>, more: seq<Sample>, n: nat)
    requires n * fl <= |h|
    ensures Energies(energy, fl, h + more, n) == Energies(energy, fl, h, n)
  {
    if n > 0 {
      Scale(n - 1, n, fl);
      EnergiesStay(energy, fl, h, more, n - 1);
      assert (h + more)[(n - 1) * fl..n * fl] == h[(n - 1) * fl..n * fl];
    }
  }

  lemma {:induction false} EnergiesPrefix(energy: Energy, fl: nat, h: seq<Sample>, m: nat, n: nat)
    requires m <= n && n * fl <= |h|
    ensures m * fl <= |h| && SameUpTo(Energies(energy, fl, h, m), Energies(energy, fl, h, n), m)
  {
    Scale(m, n, fl);
    if m < n {
      Scale(n - 1, n, fl);
      EnergiesPrefix(energy, fl, h, m, n - 1);
    }
  }

  // ------------------------------------------------------------------- phrases

  /** The samples of frames `lo..hi`. */
  ghost function Slice(h: seq<Sample>, fl: nat, lo: nat, hi: nat): seq<Sample>
    requires lo <= hi && hi * fl <= |h|
  {
    Scale(lo, hi, fl);
    h[lo * fl..hi * fl]
  }

  ghost predicate Within(ps: seq<Piece>, n: nat) {
    forall k :: 0 <= k < |ps| ==> ps[k].lo <= ps[k].hi <= n
  }

  /** The samples of the phrases among `ps`, in order. */
  ghost function Slices(h: seq<Sample>, fl: nat, n: nat, ps: seq<Piece>): seq<seq<Sample>>
    requires n * fl <= |h| && Within(ps, n)
  {
    if ps == [] then []
    else
      var p := ps[|ps| - 1];
      Scale(p.hi, n, fl);
      Slices(h, fl, n, ps[..|ps| - 1]) + if p.kept then [Slice(h, fl, p.lo, p.hi)] else []
  }

  lemma SliceStays(h: seq<Sample>, h': seq<Sample>, fl: nat, n: nat, lo: nat, hi: nat)
    requires lo <= hi <= n && n * fl <= |h| && h <= h'
    ensures hi * fl <= |h| && Slice(h', fl, lo, hi) == Slice(h, fl, lo, hi)
  {
    Scale(lo, hi, fl);
    Scale(hi, n, fl);
  }

  lemma {:induction false} SlicesStay(h: seq<Sample>, h': seq<Sample>, fl: nat, n: nat, m: nat, ps: seq<Piece>)
    requires n <= m && n * fl <= |h| && h <= h' && m * fl <= |h'| && Within(ps, n)
    ensures Slices(h', fl, m, ps) == Slices(h, fl, n, ps)
  {
    hide Slice;
    if ps != [] {
      var p := ps[|ps| - 1];
      SlicesStay(h, h', fl, n, m, ps[..|ps| - 1]);
      SliceStays(h, h', fl, n, p.lo, p.hi);
    }
  }

  lemma ScanWithin(c: Config, e: seq<real>, n: nat)
    requires c.Valid() && n <= |e|
    ensures Within(ScanOf(c, e, n).pieces, n)
  {
    Structure(c, e, n);
    forall k | 0 <= k < |ScanOf(c, e, n).pieces| ensures PieceOk(c, e, n, ScanOf(c, e, n).pieces[k]) {}
  }

  /** The phrases completed within the first `n` frames of `h`. */
  ghost function Phrases(c: Config, energy: Energy, fl: nat, h: seq<Sample>, n: nat): seq<seq<Sample>>
    requires c.Valid() && n * fl <= |h|
  {
    var e := Energies(energy, fl, h, n);
    ScanWithin(c, e, n);
    Slices(h, fl, n, ScanOf(c, e, n).pieces)
  }

  // ------------------------------------------------- one frame, on the variables

  /** The variables of a splitter. */
  datatype Fields = Fields(buffer: seq<Sample>, energies: seq<real>, inPhrase: bool, emitStart: nat,
                           phraseStart: nat, speech: nat, trailing: nat)

  predicate Stored(c: Config, fl: nat, v: Fields) {
    c.Valid() && fl >= 1 && |v.energies| >= 1 && |v.energies| * fl <= |v.buffer| && v.emitStart == 0
  }

  /** `v` has just taken in the energy of one more frame. */
  predicate Ready(c: Config, fl: nat, v: Fields) {
    Stored(c, fl, v) && (v.inPhrase ==> v.phraseStart < |v.energies| - 1 && v.trailing < |v.energies|)
  }

  function Dropped(fl: nat, v: Fields, count: nat): Fields
    requires count <= |v.energies| && |v.energies| * fl <= |v.buffer|
  {
    Scale(count, |v.energies|, fl);
    v.(buffer := v.buffer[count * fl..], energies := v.energies[count..])
  }

  /** Silence has ended the phrase: emit it with its padding if it holds enough
      speech, keep at most the padding. */
  function Ended(c: Config, fl: nat, v: Fields): (r: (Fields, seq<seq<Sample>>))
    requires Stored(c, fl, v) && v.trailing <= |v.energies|
  {
    var n := |v.energies|;
    var speechEnd := n - v.trailing;
    var end := Min(speechEnd + c.pad, n);
    Scale(end, n, fl);
    (Dropped(fl, v, Max(Max(n - c.pad, 0), speechEnd)).(inPhrase := false, speech := 0, trailing := 0),
     if v.speech >= c.minSpeech then [v.buffer[..end * fl]] else [])
  }

  /** The phrase has become too long: emit it up to the quietest recent frame. */
  function Cut(c: Config, fl: nat, v: Fields): (r: (Fields, seq<seq<Sample>>))
    requires Stored(c, fl, v) && v.phraseStart + 1 < |v.energies|
  {
    var n := |v.energies|;
    var q := ForcedCut(c, v.energies, v.phraseStart, n);
    Scale(q, n, fl);
    var d := Dropped(fl, v, q);
    (d.(phraseStart := 0, emitStart := 0,
        speech := Voiced(c, d.energies, 0, n - q), trailing := Trailing(c, d.energies, 0, n - q)),
     [v.buffer[..q * fl]])
  }

  /** The counters of an open phrase after its newest frame. */
  function Counted(c: Config, v: Fields): Fields
    requires |v.energies| >= 1
  {
    if c.Silent(v.energies[|v.energies| - 1]) then v.(trailing := v.trailing + 1)
    else v.(speech := v.speech + 1, trailing := 0)
  }

  /** The effect of the newest frame, and the phrases it completes. */
  function AfterFrame(c: Config, fl: nat, v: Fields): (r: (Fields, seq<seq<Sample>>))
    requires Ready(c, fl, v)
  {
    var n := |v.energies|;
    if !v.inPhrase then
      if c.Silent(v.energies[n - 1]) then (Dropped(fl, v, Max(n - c.pad, 0)), [])
      else
        (v.(inPhrase := true, phraseStart := n - 1, emitStart := Max(n - 1 - c.pad, 0), speech := 1, trailing := 0), [])
    else
      var w := Counted(c, v);
      if w.trailing >= c.split then Ended(c, fl, w)
      else if n - w.phraseStart >= c.maxPhrase then Cut(c, fl, w)
      else (w, [])
  }

  // ------------------------------------- the variables reflect the segmentation

  /** `v` is what remains of `h` when the scan of its first `n` frames is `s` and
      the energies `e` have been computed. */
  ghost predicate Reflects(c: Config, fl: nat, h: seq<Sample>, e: seq<real>, n: nat, s: Scan, v: Fields) {
    && fl >= 1 && c.Valid() && n <= |e| && |e| * fl <= |h| && Fits(s, n)
    && TailOf(v.buffer, h, s.base * fl)
    && TailOf(v.energies, e, s.base)
    && v.inPhrase == s.speaking
    && v.emitStart == 0
    && (s.speaking ==> v.phraseStart == s.start - s.base)
    && v.speech == (if s.speaking then Voiced(c, e, s.base, n) else 0)
    && v.trailing == if s.speaking then Trailing(c, e, s.base, n) else 0
  }

  lemma {:induction false} CountsShift(c: Config, x: seq<real>, e: seq<real>, k: nat, lo: nat, hi: nat)
    requires TailOf(x, e, k) && lo <= hi <= |x|
    ensures Voiced(c, x, lo, hi) == Voiced(c, e, lo + k, hi + k)
    ensures Trailing(c, x, lo, hi) == Trailing(c, e, lo + k, hi + k)
  {
    if lo < hi { CountsShift(c, x, e, k, lo, hi - 1); }
  }

  lemma {:induction false} QuietestShift(x: seq<real>, e: seq<real>, k: nat, lo: nat, hi: nat)
    requires TailOf(x, e, k) && lo < hi <= |x|
    ensures Quietest(e, lo + k, hi + k) == k + Quietest(x, lo, hi)
  {
    if lo + 1 < hi { QuietestShift(x, e, k, lo, hi - 1); }
  }

  /** Forgetting `k` frames of the buffer moves its base by `k`. */
  lemma DropReflects(h: seq<Sample>, e: seq<real>, fl: nat, base: nat, k: nat, v: Fields)
    requires base + k <= |e| && |e| * fl <= |h|
    requires TailOf(v.buffer, h, base * fl) && TailOf(v.energies, e, base)
    ensures k <= |v.energies| && |v.energies| * fl <= |v.buffer|
    ensures TailOf(Dropped(fl, v, k).buffer, h, (base + k) * fl) && TailOf(Dropped(fl, v, k).energies, e, base + k)
  {
    Scale(base, base + k, fl);
    Scale(base + k, |e|, fl);
    Scale(base, |e|, fl);
  }

  /** The first frames of the buffer, as samples of the history. */
  lemma BufferPrefix(h: seq<Sample>, fl: nat, n: nat, base: nat, end: nat, buffer: seq<Sample>)
    requires base <= end <= n && n * fl <= |h| && TailOf(buffer, h, base * fl)
    ensures end * fl <= |h| && (end - base) * fl <= |buffer|
    ensures buffer[..(end - base) * fl] == Slice(h, fl, base, end)
  {
    Scale(base, end, fl);
    Scale(end, n, fl);
  }

  /** `v` reflects all frames but the newest of `e`. */
  ghost predicate Pending(c: Config, fl: nat, h: seq<Sample>, e: seq<real>, s: Scan, v: Fields) {
    |e| >= 1 && Reflects(c, fl, h, e, |e| - 1, s, v) && OpenOk(c, e, |e| - 1, s)
  }

  lemma PendingReady(c: Config, fl: nat, h: seq<Sample>, e: seq<real>, s: Scan, v: Fields)
    requires Pending(c, fl, h, e, s, v)
    ensures Ready(c, fl, v)
  {
    Scale(s.base, |e|, fl);
  }

  lemma IdleFrame(c: Config, fl: nat, h: seq<Sample>, e: seq<real>, s: Scan, v: Fields)
    requires Pending(c, fl, h, e, s, v) && !s.speaking
    ensures Ready(c, fl, v) && AfterFrame(c, fl, v).1 == [] && Step(c, e, |e| - 1, s).pieces == s.pieces
    ensures Reflects(c, fl, h, e, |e|, Step(c, e, |e| - 1, s), AfterFrame(c, fl, v).0)
  {
    PendingReady(c, fl, h, e, s, v);
    var n := |e|;
    if c.Silent(e[n - 1]) {
      DropReflects(h, e, fl, s.base, Max(n - s.base - c.pad, 0), v);
    } else {
      VoicedZero(c, e, s.base, n - 1);
    }
  }

  lemma CountedReflects(c: Config, fl: nat, h: seq<Sample>, e: seq<real>, s: Scan, v: Fields)
    requires Pending(c, fl, h, e, s, v) && s.speaking
    ensures Ready(c, fl, v) && Stored(c, fl, Counted(c, v))
    ensures Reflects(c, fl, h, e, |e|, s, Counted(c, v))
  {
    PendingReady(c, fl, h, e, s, v);
  }

  lemma SilenceReflects(c: Config, fl: nat, h: seq<Sample>, e: seq<real>, s: Scan, v: Fields)
    requires Stored(c, fl, v) && Reflects(c, fl, h, e, |e|, s, v) && s.speaking
    ensures v.trailing <= |v.energies|
    ensures Reflects(c, fl, h, e, |e|, AfterSilence(c, e, |e|, s), Ended(c, fl, v).0)
    ensures var p := ClosedPiece(c, e, s.base, |e|);
            p.hi * fl <= |h| && Ended(c, fl, v).1 == if p.kept then [Slice(h, fl, p.lo, p.hi)] else []
  {
    var n := |e|;
    var p := ClosedPiece(c, e, s.base, n);
    DropReflects(h, e, fl, s.base, Max(n - c.pad, p.cut) - s.base, v);
    BufferPrefix(h, fl, n, s.base, p.hi, v.buffer);
  }

  lemma CutAt(c: Config, fl: nat, h: seq<Sample>, e: seq<real>, s: Scan, v: Fields)
    requires Stored(c, fl, v) && Reflects(c, fl, h, e, |e|, s, v) && s.speaking && s.start + 1 < |e|
    ensures v.phraseStart + 1 < |v.energies|
    ensures ForcedCut(c, e, s.start, |e|) == s.base + ForcedCut(c, v.energies, v.phraseStart, |v.energies|)
  {
    QuietestShift(v.energies, e, s.base, Max(|e| - c.quiet, s.start + 1) - s.base, |e| - s.base);
  }

  lemma CutReflects(c: Config, fl: nat, h: seq<Sample>, e: seq<real>, s: Scan, v: Fields)
    requires Stored(c, fl, v) && Reflects(c, fl, h, e, |e|, s, v) && s.speaking && s.start + 1 < |e|
    ensures v.phraseStart + 1 < |v.energies|
    ensures Reflects(c, fl, h, e, |e|, AfterCut(c, e, |e|, s), Cut(c, fl, v).0)
    ensures var q := ForcedCut(c, e, s.start, |e|);
            q * fl <= |h| && Cut(c, fl, v).1 == [Slice(h, fl, s.base, q)]
  {
    CutAt(c, fl, h, e, s, v);
    var q := ForcedCut(c, e, s.start, |e|);
    DropReflects(h, e, fl, s.base, q - s.base, v);
    BufferPrefix(h, fl, |e|, s.base, q, v.buffer);
    CountsShift(c, Dropped(fl, v, q - s.base).energies, e, q, 0, |e| - q);
  }

  /** `out` is the phrase, if any, by which `after` extends `before`. */
  ghost predicate Finishes(h: seq<Sample>, fl: nat, before: seq<Piece>, after: seq<Piece>, out: seq<seq<Sample>>) {
    || (after == before && out == [])
    || (|after| > 0 && after[..|after| - 1] == before
        && var p := after[|after| - 1];
           p.lo <= p.hi && p.hi * fl <= |h| && out == if p.kept then [Slice(h, fl, p.lo, p.hi)] else [])
  }

  lemma OpenFrame(c: Config, fl: nat, h: seq<Sample>, e: seq<real>, s: Scan, v: Fields)
    requires Pending(c, fl, h, e, s, v) && s.speaking
    ensures Ready(c, fl, v)
    ensures Reflects(c, fl, h, e, |e|, Step(c, e, |e| - 1, s), AfterFrame(c, fl, v).0)
    ensures Finishes(h, fl, s.pieces, Step(c, e, |e| - 1, s).pieces, AfterFrame(c, fl, v).1)
  {
    CountedReflects(c, fl, h, e, s, v);
    var w := Counted(c, v);
    if w.trailing >= c.split {
      SilenceReflects(c, fl, h, e, s, w);
    } else if |e| - s.start >= c.maxPhrase {
      CutReflects(c, fl, h, e, s, w);
    }
  }

  /** `v` is what processing the first `n` frames of `h` leaves behind, when the
      energies of the first `m` frames have been computed. */
  ghost predicate Matches(c: Config, energy: Energy, fl: nat, h: seq<Sample>, n: nat, m: nat, v: Fields) {
    && c.Valid() && n <= m && m * fl <= |h|
    && Reflects(c, fl, h, Energies(energy, fl, h, m), n, ScanOf(c, Energies(energy, fl, h, m), n), v)
  }

  lemma NothingFed(c: Config, energy: Energy, fl: nat)
    requires fl >= 1 && c.Valid()
    ensures Matches(c, energy, fl, [], 0, 0, Fields([], [], false, 0, 0, 0, 0))
  {}

  /** Processing one more frame of the history. */
  lemma FrameMatches(c: Config, energy: Energy, fl: nat, h: seq<Sample>, n: nat, v: Fields)
    requires Matches(c, energy, fl, h, n, n + 1, v)
    ensures n * fl <= |h| && Ready(c, fl, v)
    ensures Matches(c, energy, fl, h, n + 1, n + 1, AfterFrame(c, fl, v).0)
    ensures Phrases(c, energy, fl, h, n + 1) == Phrases(c, energy, fl, h, n) + AfterFrame(c, fl, v).1
  {
    hide AfterFrame, Step, Energies, Slice, OpenOk;
    var e := Energies(energy, fl, h, n + 1);
    var s := ScanOf(c, e, n);
    OpenEnd(c, e, n);
    if s.speaking { OpenFrame(c, fl, h, e, s, v); } else { IdleFrame(c, fl, h, e, s, v); }
    EnergiesPrefix(energy, fl, h, n, n + 1);
    ScanSame(c, Energies(energy, fl, h, n), e, n);
    ScanWithin(c, e, n);
    ScanWithin(c, e, n + 1);
    SlicesStay(h, h, fl, n, n + 1, s.pieces);
  }

  /** Where frame `n` of the history is in a buffer that starts at frame `base`. */
  lemma FrameInBuffer(h: seq<Sample>, fl: nat, base: nat, n: nat, buffer: seq<Sample>)
    requires fl >= 1 && base <= n && n * fl <= |h| && TailOf(buffer, h, base * fl)
    ensures n <= |h|
    ensures (n - base + 1) * fl <= |buffer| <==> (n + 1) * fl <= |h|
    ensures (n + 1) * fl <= |h| ==>
              && 0 <= (n - base) * fl <= (n - base + 1) * fl <= |buffer|
              && buffer[(n - base) * fl..(n - base + 1) * fl] == h[n * fl..(n + 1) * fl]
  {
    Scale(base, n, fl);
    Scale(base, n + 1, fl);
    Scale(n - base, n - base + 1, fl);
    assert n * fl >= n;
  }

  /** Computing the energy of the next frame. */
  lemma PushMatches(c: Config, energy: Energy, fl: nat, h: seq<Sample>, n: nat, v: Fields)
    requires Matches(c, energy, fl, h, n, n, v)
    ensures n <= |h| && ((|v.energies| + 1) * fl <= |v.buffer| <==> (n + 1) * fl <= |h|)
    ensures (n + 1) * fl <= |h| ==>
              && |v.energies| * fl <= (|v.energies| + 1) * fl
              && Matches(c, energy, fl, h, n, n + 1,
                         v.(energies := v.energies + [energy(v.buffer[|v.energies| * fl..(|v.energies| + 1) * fl])]))
  {
    var e := Energies(energy, fl, h, n);
    var s := ScanOf(c, e, n);
    FrameInBuffer(h, fl, s.base, n, v.buffer);
    if (n + 1) * fl <= |h| {
      var e' := Energies(energy, fl, h, n + 1);
      EnergiesPrefix(energy, fl, h, n, n + 1);
      ScanSame(c, e, e', n);
      PushReflects(c, fl, h, e, e', n, s, v);
    }
  }

  lemma PushReflects(c: Config, fl: nat, h: seq<Sample>, e: seq<real>, e': seq<real>, n: nat, s: Scan, v: Fields)
    requires Reflects(c, fl, h, e, n, s, v) && |e| == n && |e'| == n + 1 && SameUpTo(e, e', n) && (n + 1) * fl <= |h|
    ensures Reflects(c, fl, h, e', n, s, v.(energies := v.energies + [e'[n]]))
  {
    CountsSame(c, e, e', s.base, n);
  }

  /** Receiving samples. */
  lemma MoreMatches(c: Config, energy: Energy, fl: nat, h: seq<Sample>, more: seq<Sample>, n: nat, v: Fields)
    requires Matches(c, energy, fl, h, n, n, v)
    ensures Matches(c, energy, fl, h + more, n, n, v.(buffer := v.buffer + more))
    ensures Phrases(c, energy, fl, h + more, n) == Phrases(c, energy, fl, h, n)
  {
    EnergiesStay(energy, fl, h, more, n);
    var e := Energies(energy, fl, h, n);
    ScanWithin(c, e, n);
    SlicesStay(h, h + more, fl, n, n, ScanOf(c, e, n).pieces);
  }

  /** The buffer holds another complete frame. */
  predicate HasFrame(c: Config, fl: nat, v: Fields) {
    && c.Valid() && fl >= 1 && v.emitStart == 0
    && |v.energies| * fl <= (|v.energies| + 1) * fl <= |v.buffer|
    && (v.inPhrase ==> v.phraseStart < |v.energies| && v.trailing <= |v.energies|)
  }

  /** One turn of the feeding loop. */
  function NextFrame(c: Config, energy: Energy, fl: nat, v: Fields): (Fields, seq<seq<Sample>>)
    requires HasFrame(c, fl, v)
  {
    var e := energy(v.buffer[|v.energies| * fl..(|v.energies| + 1) * fl]);
    AfterFrame(c, fl, v.(energies := v.energies + [e]))
  }

  lemma NextFrameMatches(c: Config, energy: Energy, fl: nat, h: seq<Sample>, n: nat, v: Fields)
    requires Matches(c, energy, fl, h, n, n, v) && (|v.energies| + 1) * fl <= |v.buffer|
    ensures n < |h| && n * fl <= (n + 1) * fl <= |h| && HasFrame(c, fl, v)
    ensures Matches(c, energy, fl, h, n + 1, n + 1, NextFrame(c, energy, fl, v).0)
    ensures Phrases(c, energy, fl, h, n + 1) == Phrases(c, energy, fl, h, n) + NextFrame(c, energy, fl, v).1
  {
    hide AfterFrame, ScanOf, Phrases, Reflects, Energies;
    PushMatches(c, energy, fl, h, n, v);
    Scale(n, n + 1, fl);
    var e := energy(v.buffer[|v.energies| * fl..(|v.energies| + 1) * fl]);
    FrameMatches(c, energy, fl, h, n, v.(energies := v.energies + [e]));
    assert (n + 1) * fl >= n + 1;
  }

  /** When the buffer holds no further complete frame, neither does the history. */
  lemma AllProcessed(c: Config, energy: Energy, fl: nat, h: seq<Sample>, n: nat, v: Fields)
    requires Matches(c, energy, fl, h, n, n, v) && !((|v.energies| + 1) * fl <= |v.buffer|)
    ensures |h| < (n + 1) * fl
  {
    PushMatches(c, energy, fl, h, n, v);
  }

  /** The phrase a flush returns after the first `n` frames of `h`. */
  ghost function Rest(c: Config, energy: Energy, fl: nat, h: seq<Sample>, n: nat): Option<seq<Sample>>
    requires c.Valid() && n * fl <= |h|
  {
    var e := Energies(energy, fl, h, n);
    var s := ScanOf(c, e, n);
    var t := Trailing(c, e, s.base, n);
    Scale(s.base, n, fl);
    if !s.speaking || Voiced(c, e, s.base, n) < c.minSpeech then None
    else if t > c.pad then
      Scale(s.base, n - t + c.pad, fl);
      Scale(n - t + c.pad, n, fl);
      Some(h[s.base * fl..(n - t + c.pad) * fl])
    else Some(h[s.base * fl..])
  }

  lemma RestUnfolds(c: Config, energy: Energy, fl: nat, h: seq<Sample>, n: nat)
    requires c.Valid() && n * fl <= |h|
    ensures var e := Energies(energy, fl, h, n);
            var s := ScanOf(c, e, n);
            var t := Trailing(c, e, s.base, n);
            var end := if t > c.pad then (n - t + c.pad) * fl else |h|;
            var rest := Rest(c, energy, fl, h, n);
            && (rest.Some? <==> s.speaking && Voiced(c, e, s.base, n) >= c.minSpeech)
            && (rest.Some? ==> 0 <= s.base * fl <= end <= |h| && rest.value == h[s.base * fl..end])
  {
    hide Energies, ScanOf, Voiced, Trailing;
    var e := Energies(energy, fl, h, n);
    var s := ScanOf(c, e, n);
    var t := Trailing(c, e, s.base, n);
    Scale(s.base, n, fl);
    if t > c.pad {
      Scale(s.base, n - t + c.pad, fl);
      Scale(n - t + c.pad, n, fl);
    }
  }

  lemma RestInBuffer(c: Config, energy: Energy, fl: nat, h: seq<Sample>, n: nat, v: Fields)
    requires Matches(c, energy, fl, h, n, n, v)
    ensures Rest(c, energy, fl, h, n).None? <==> !v.inPhrase || v.speech < c.minSpeech
    ensures v.inPhrase && v.speech >= c.minSpeech ==>
              var end := if v.trailing > c.pad then (|v.energies| - v.trailing + c.pad) * fl else |v.buffer|;
              0 <= end <= |v.buffer| && Rest(c, energy, fl, h, n) == Some(v.buffer[..end])
    ensures v.trailing <= |v.energies|
  {
    hide Energies, ScanOf, Voiced, Trailing;
    var e := Energies(energy, fl, h, n);
    var s := ScanOf(c, e, n);
    RestUnfolds(c, energy, fl, h, n);
    hide Rest;
    if v.inPhrase && v.speech >= c.minSpeech {
      Scale(s.base, n, fl);
      if v.trailing > c.pad {
        RestEnd(s.base, n, |v.energies|, v.trailing, c.pad, fl);
        Front(v.buffer, h, s.base * fl, (n - v.trailing + c.pad) * fl);
      } else {
        Front(v.buffer, h, s.base * fl, |h|);
      }
    }
  }

  lemma RestEnd(base: nat, n: nat, count: nat, t: nat, pad: nat, fl: nat)
    requires base + count == n && pad < t <= count
    ensures 0 <= base * fl <= (n - t + pad) * fl && (count - t + pad) * fl == (n - t + pad) * fl - base * fl
  {
    Scale(base, n - t + pad, fl);
    assert n - t + pad - base == count - t + pad;
  }

  lemma Front(s: seq<Sample>, h: seq<Sample>, k: nat, end: nat)
    requires TailOf(s, h, k) && k <= end <= |h|
    ensures h[k..end] == s[..end - k]
  {}

  class PhraseSplitter {
    const frameLen: nat
    const config: Config
    const energy: Energy
    var buffer: seq<Sample>
    var energies: seq<real>
    var inPhrase: bool
    var emitStartFrame: nat
    var phraseStartFrame: nat
    var speechFrames: nat
    var trailingSilence: nat

    /** Everything fed since creation or the last flush, and how many complete
        frames of it have been processed. */
    ghost var history: seq<Sample>
    ghost var frames: nat

    ghost function View(): Fields
      reads this
    {
      Fields(buffer, energies, inPhrase, emitStartFrame, phraseStartFrame, speechFrames, trailingSilence)
    }

    /** Every variable is determined by the history, all complete frames of which
        have been processed. */
    ghost predicate Valid()
      reads this
    {
      && Matches(config, energy, frameLen, history, frames, frames, View())
      && |history| < (frames + 1) * frameLen
    }

    /** All phrases emitted since creation or the last flush. */
    ghost function Emitted(): seq<seq<Sample>>
      reads this
      requires Valid()
    {
      Phrases(config, energy, frameLen, history, frames)
    }

    constructor WithParams(frameLen: nat, threshold: real, split: nat, minSpeech: nat, maxPhrase: nat, pad: nat,
                           quiet: nat, energy: Energy)
      ensures Valid() && history == [] && this.energy == energy
      ensures this.frameLen == Max(frameLen, 1)
      ensures config == Clamped(threshold, split, minSpeech, maxPhrase, pad, quiet)
    {
      this.frameLen := Max(frameLen, 1);
      this.config := Clamped(threshold, split, minSpeech, maxPhrase, pad, quiet);
      this.energy := energy;
      buffer, energies, inPhrase := [], [], false;
      emitStartFrame, phraseStartFrame, speechFrames, trailingSilence := 0, 0, 0, 0;
      history, frames := [], 0;
      NothingFed(Clamped(threshold, split, minSpeech, maxPhrase, pad, quiet), energy, Max(frameLen, 1));
    }

    constructor New(sampleRate: nat, threshold: real, phraseSilenceMs: nat, energy: Energy)
      ensures Valid() && history == [] && this.energy == energy
      ensures frameLen == if sampleRate * 100 / 1000 < 1 then 1 else sampleRate * 100 / 1000
      ensures config == Config(threshold, config.split, 3, 200, 1, 20)
      ensures if phraseSilenceMs == 0 then config.split == 1
              else (config.split - 1) * 100 < phraseSilenceMs <= config.split * 100
    {
      var split := Max(DivCeil(phraseSilenceMs, FRAME_MS), 1);
      var minSpeech := Max(DivCeil(MIN_PHRASE_SPEECH_MS, FRAME_MS), 1);
      var maxPhrase := Max(MAX_PHRASE_SECS * 1000 / FRAME_MS, 2);
      var quiet := Max(QUIET_SEARCH_MS / FRAME_MS, 1);
      this.frameLen := Max(Max(sampleRate * FRAME_MS / 1000, 1), 1);
      this.config := Clamped(threshold, split, minSpeech, maxPhrase, PAD_MS / FRAME_MS, quiet);
      this.energy := energy;
      buffer, energies, inPhrase := [], [], false;
      emitStartFrame, phraseStartFrame, speechFrames, trailingSilence := 0, 0, 0, 0;
      history, frames := [], 0;
      NothingFed(Clamped(threshold, split, minSpeech, maxPhrase, PAD_MS / FRAME_MS, quiet), energy,
                 Max(sampleRate * FRAME_MS / 1000, 1));
    }

    method DropFrames(count: nat)
      requires count <= |energies| && |energies| * frameLen <= |buffer|
      modifies this`buffer, this`energies
      ensures View() == Dropped(frameLen, old(View()), count)
    {
      Scale(count, |energies|, frameLen);
      if count == 0 { return; }
      buffer := buffer[count * frameLen..];
      energies := energies[count..];
    }

    method Clear()
      requires frameLen >= 1 && config.Valid()
      modifies this
      ensures Valid() && history == []
    {
      NothingFed(config, energy, frameLen);
      buffer, energies, inPhrase := [], [], false;
      emitStartFrame, phraseStartFrame, speechFrames, trailingSilence := 0, 0, 0, 0;
      history, frames := [], 0;
    }

    method EndPhrase(i: nat, out: seq<seq<Sample>>) returns (out': seq<seq<Sample>>)
      requires Stored(config, frameLen, View()) && i + 1 == |energies| && trailingSilence <= |energies|
      modifies this`buffer, this`energies, this`inPhrase, this`speechFrames, this`trailingSilence
      ensures View() == Ended(config, frameLen, old(View())).0
      ensures out' == out + Ended(config, frameLen, old(View())).1
    {
      var speechEnd := i + 1 - trailingSilence;
      var endFrame := Min(speechEnd + config.pad, |energies|);
      Scale(endFrame, |energies|, frameLen);
      out' := out;
      if speechFrames >= config.minSpeech {
        out' := out' + [buffer[emitStartFrame * frameLen..endFrame * frameLen]];
      }
      inPhrase := false;
      speechFrames := 0;
      trailingSilence := 0;
      var keepFrom := Max(Max(|energies| - config.pad, 0), speechEnd);
      DropFrames(keepFrom);
    }

    /** The search of a forced split: the first quietest frame of `searchStart..=i`. */
    method QuietestFrame(searchStart: nat, i: nat) returns (splitFrame: nat)
      requires searchStart <= i < |energies|
      ensures splitFrame == Quietest(energies, searchStart, i + 1)
    {
      splitFrame := searchStart;
      var minEnergy: Option<real> := None;
      var j := searchStart;
      while j <= i
        invariant searchStart <= j <= i + 1 && searchStart <= splitFrame <= i
        invariant minEnergy.None? <==> j == searchStart
        invariant minEnergy.Some? ==>
                    splitFrame == Quietest(energies, searchStart, j) && minEnergy.value == energies[splitFrame]
      {
        if minEnergy.None? || energies[j] < minEnergy.value {
          minEnergy := Some(energies[j]);
          splitFrame := j;
        }
        j := j + 1;
      }
    }

    method ForceSplit(i: nat, out: seq<seq<Sample>>) returns (out': seq<seq<Sample>>)
      requires Stored(config, frameLen, View()) && i + 1 == |energies| && phraseStartFrame + 1 < |energies|
      modifies this`buffer, this`energies, this`emitStartFrame, this`phraseStartFrame
      modifies this`speechFrames, this`trailingSilence
      ensures View() == Cut(config, frameLen, old(View())).0
      ensures out' == out + Cut(config, frameLen, old(View())).1
    {
      hide Voiced, Trailing, Quietest;
      var searchStart := Max(i + 1 - config.quiet, phraseStartFrame + 1);
      var splitFrame := QuietestFrame(searchStart, i);
      Scale(splitFrame, |energies|, frameLen);
      out' := out + [buffer[emitStartFrame * frameLen..splitFrame * frameLen]];
      DropFrames(splitFrame);
      phraseStartFrame := 0;
      emitStartFrame := 0;
      speechFrames := Voiced(config, energies, 0, |energies|);
      trailingSilence := Trailing(config, energies, 0, |energies|);
    }

    method ProcessFrame(i: nat, energy: real, out: seq<seq<Sample>>) returns (out': seq<seq<Sample>>)
      requires Ready(config, frameLen, View()) && i + 1 == |energies| && energy == energies[i]
      modifies this`buffer, this`energies, this`inPhrase, this`emitStartFrame, this`phraseStartFrame
      modifies this`speechFrames, this`trailingSilence
      ensures View() == AfterFrame(config, frameLen, old(View())).0
      ensures out' == out + AfterFrame(config, frameLen, old(View())).1
    {
      hide Ended, Cut;
      out' := out;
      var silent := config.Silent(energy);
      if !inPhrase {
        if silent {
          if |energies| > config.pad {
            DropFrames(|energies| - config.pad);
          }
        } else {
          inPhrase := true;
          phraseStartFrame := i;
          emitStartFrame := Max(i - config.pad, 0);
          speechFrames := 1;
          trailingSilence := 0;
        }
        return;
      }
      if silent {
        trailingSilence := trailingSilence + 1;
        if trailingSilence >= config.split {
          out' := EndPhrase(i, out');
          return;
        }
      } else {
        speechFrames := speechFrames + 1;
        trailingSilence := 0;
      }
      if i + 1 - phraseStartFrame >= config.maxPhrase {
        out' := ForceSplit(i, out');
      }
    }

    method FeedFrame(out: seq<seq<Sample>>) returns (out': seq<seq<Sample>>)
      requires HasFrame(config, frameLen, View())
      modifies this`buffer, this`energies, this`inPhrase, this`emitStartFrame, this`phraseStartFrame
      modifies this`speechFrames, this`trailingSilence
      ensures View() == NextFrame(config, energy, frameLen, old(View())).0
      ensures out' == out + NextFrame(config, energy, frameLen, old(View())).1
    {
      var i := |energies|;
      var e := energy(buffer[i * frameLen..(i + 1) * frameLen]);
      energies := energies + [e];
      out' := ProcessFrame(i, e, out);
    }

    /** Takes in samples and returns the phrases they complete. */
    method Feed(samples: seq<Sample>) returns (out: seq<seq<Sample>>)
      requires Valid()
      modifies this
      ensures Valid() && history == old(history) + samples
      ensures Emitted() == old(Emitted()) + out
    {
      hide NextFrame, Reflects, ScanOf, Energies, Phrases, HasFrame;
      ghost var before := Emitted();
      MoreMatches(config, energy, frameLen, history, samples, frames, View());
      buffer := buffer + samples;
      out := [];
      ghost var h, n, v := history + samples, frames, View();
      while (|energies| + 1) * frameLen <= |buffer|
        invariant View() == v
        invariant Matches(config, energy, frameLen, h, n, n, v)
        invariant Phrases(config, energy, frameLen, h, n) == before + out
        decreases |h| - n
      {
        NextFrameMatches(config, energy, frameLen, h, n, v);
        out := FeedFrame(out);
        n, v := n + 1, NextFrame(config, energy, frameLen, v).0;
      }
      AllProcessed(config, energy, frameLen, h, n, v);
      history, frames := h, n;
    }

    /** Ends the stream: returns the open phrase, if it holds enough speech, and
        starts afresh. */
    method Flush() returns (phrase: Option<seq<Sample>>)
      requires Valid()
      modifies this
      ensures Valid() && history == []
      ensures phrase == old(Rest(config, energy, frameLen, history, frames))
    {
      RestInBuffer(config, energy, frameLen, history, frames, View());
      hide Energies, ScanOf;
      if !inPhrase || speechFrames < config.minSpeech {
        Clear();
        return None;
      }
      var endSample := if trailingSilence > config.pad
                       then (|energies| - trailingSilence + config.pad) * frameLen
                       else |buffer|;
      phrase := Some(buffer[emitStartFrame * frameLen..endSample]);
      Clear();
    }
  }
}
