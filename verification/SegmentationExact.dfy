/** Which pieces a list of energies has, said without counters: where each begins, what
    ends it, and how much padding it gets. */
module SegmentationExact {
  import opened Segmentation
  import opened SegmentationLaws

  /** Every frame of `lo..hi` is below the threshold. */
  predicate Quiet(c: Config, e: seq<real>, lo: int, hi: int) {
    forall i :: lo <= i < hi && 0 <= i < |e| ==> e[i] < c.threshold
  }

  predicate Loud(c: Config, e: seq<real>, i: int) { 0 <= i < |e| && e[i] >= c.threshold }

  /** How many frames of `lo..hi` reach the threshold. */
  function LoudFrames(c: Config, e: seq<real>, lo: nat, hi: nat): set<int> {
    set i | lo <= i < hi && Loud(c, e, i)
  }

  /** A stretch that begins at `lo` and is measured from `start`, when all before `b` is
      settled: right there after a forced cut, else at the first loud frame, with the
      padding that is left before it. */
  predicate Begins(c: Config, e: seq<real>, b: nat, forced: bool, lo: nat, start: nat) {
    if forced then lo == b && start == b
    else b <= start && Quiet(c, e, b, start) && Loud(c, e, start) && lo == Max(b, start - c.pad)
  }

  /** The `split` frames before frame `j` are quiet. */
  predicate Pause(c: Config, e: seq<real>, j: int) { Quiet(c, e, j - c.split, j) }

  /** Up to frame `hi` there is no pause in the stretch. */
  predicate NoPause(c: Config, e: seq<real>, lo: int, start: int, hi: int) {
    forall j :: start < j <= hi && lo + c.split <= j ==> !Pause(c, e, j)
  }

  /** Ended by a pause: `split` quiet frames, the first such, with as many of them as
      padding allows; kept exactly if enough frames are loud. */
  predicate EndsInPause(c: Config, e: seq<real>, n: nat, start: nat, p: Piece) {
    var m := p.cut + c.split;
    && p.lo <= p.cut && m <= n && m - start <= c.maxPhrase
    && Pause(c, e, m) && NoPause(c, e, p.lo, start, m - 1) && (p.cut == p.lo || Loud(c, e, p.cut - 1))
    && p.hi == p.cut + Min(c.pad, c.split)
    && (p.kept <==> |LoudFrames(c, e, p.lo, p.cut)| >= c.minSpeech)
  }

  /** Cut by force when `maxPhrase` frames have brought no pause: at the first of the
      least loud frames of the search window. */
  predicate EndsInCut(c: Config, e: seq<real>, n: nat, start: nat, p: Piece) {
    var m := start + c.maxPhrase;
    && m <= n <= |e| && NoPause(c, e, p.lo, start, m)
    && p.hi == p.cut && p.kept
    && start < p.cut < m && m - c.quiet <= p.cut
    && (forall i :: start < i < m && m - c.quiet <= i ==> e[p.cut] <= e[i])
    && (forall i :: start < i < p.cut && m - c.quiet <= i ==> e[p.cut] < e[i])
  }

  ghost predicate PieceExact(c: Config, e: seq<real>, n: nat, b: nat, forcedBefore: bool, p: Piece, forced: bool) {
    exists start: nat ::
      Begins(c, e, b, forcedBefore, p.lo, start)
      && if forced then EndsInCut(c, e, n, start, p) else EndsInPause(c, e, n, start, p)
  }

  /** Up to where all is settled by the first `k` pieces. */
  function SettledTo(ps: seq<Piece>, k: nat): nat
    requires k <= |ps|
  {
    if k == 0 then 0 else ps[k - 1].cut
  }

  ghost predicate ExactAt(c: Config, e: seq<real>, n: nat, ps: seq<Piece>, forced: seq<bool>, k: nat)
    requires k < |ps| && |forced| == |ps|
  {
    PieceExact(c, e, n, SettledTo(ps, k), k > 0 && forced[k - 1], ps[k], forced[k])
  }

  /** `forced` says which of the pieces were cut by force. */
  ghost predicate PiecesExact(c: Config, e: seq<real>, n: nat, ps: seq<Piece>, forced: seq<bool>) {
    |forced| == |ps| && forall k: nat :: k < |ps| ==> ExactAt(c, e, n, ps, forced, k)
  }

  /** What is open, or not, behind the last piece. */
  ghost predicate OpenExact(c: Config, e: seq<real>, n: nat, s: Scan, b: nat, forcedBefore: bool) {
    if s.speaking then
      && Begins(c, e, b, forcedBefore, s.base, s.start)
      && s.start < n < s.start + c.maxPhrase && NoPause(c, e, s.base, s.start, n)
    else !forcedBefore && b <= n && Quiet(c, e, b, n) && s.base == Max(b, n - c.pad)
  }

  // ------------------------------------------------------------------- counting

  lemma {:induction false} VoicedIsLoud(c: Config, e: seq<real>, lo: nat, hi: nat)
    requires lo <= hi <= |e|
    ensures Voiced(c, e, lo, hi) == |LoudFrames(c, e, lo, hi)|
  {
    if lo < hi {
      VoicedIsLoud(c, e, lo, hi - 1);
      var front := LoudFrames(c, e, lo, hi - 1);
      assert LoudFrames(c, e, lo, hi) == if Loud(c, e, hi - 1) then front + {hi - 1} else front;
    } else {
      assert LoudFrames(c, e, lo, hi) == {};
    }
  }

  lemma TrailingIsQuiet(c: Config, e: seq<real>, lo: nat, hi: nat)
    requires lo <= hi <= |e|
    ensures var cut := hi - Trailing(c, e, lo, hi);
            Quiet(c, e, cut, hi) && (cut == lo || Loud(c, e, cut - 1))
  {
    TrailingSilence(c, e, lo, hi);
  }

  /** While the silence at the end is too short to end the stretch, there is no pause. */
  lemma StillNoPause(c: Config, e: seq<real>, lo: nat, start: nat, n: nat)
    requires lo <= n < |e| && NoPause(c, e, lo, start, n) && Trailing(c, e, lo, n + 1) < c.split
    ensures NoPause(c, e, lo, start, n + 1)
  {
    TrailingIsQuiet(c, e, lo, n + 1);
    var cut := n + 1 - Trailing(c, e, lo, n + 1);
    assert lo + c.split <= n + 1 ==> Loud(c, e, cut - 1) && !Quiet(c, e, n + 1 - c.split, n + 1);
  }

  // ----------------------------------------------------------------- one frame

  lemma IdleExact(c: Config, e: seq<real>, n: nat, s: Scan, b: nat, forced: bool)
    requires c.Valid() && n < |e| && Fits(s, n) && !s.speaking && OpenExact(c, e, n, s, b, forced)
    ensures OpenExact(c, e, n + 1, Step(c, e, n, s), b, forced) && Step(c, e, n, s).pieces == s.pieces
  {
    if !c.Silent(e[n]) { assert NoPause(c, e, s.base, n, n + 1) by { assert Loud(c, e, n); } }
  }

  /** The frame that completes a pause. */
  lemma PauseFound(c: Config, e: seq<real>, base: nat, n: nat)
    requires base <= n < |e| && Trailing(c, e, base, n) < c.split <= Trailing(c, e, base, n + 1)
    ensures Trailing(c, e, base, n + 1) == c.split
    ensures var p := ClosedPiece(c, e, base, n + 1);
            && p.lo == base && p.cut + c.split == n + 1 && p.hi == p.cut + Min(c.pad, c.split)
            && Pause(c, e, n + 1) && (p.cut == base || Loud(c, e, p.cut - 1))
            && (p.kept <==> |LoudFrames(c, e, base, p.cut)| >= c.minSpeech)
  {
    var p := ClosedPiece(c, e, base, n + 1);
    TrailingIsQuiet(c, e, base, n + 1);
    VoicedSplit(c, e, base, p.cut, n + 1);
    VoicedZero(c, e, p.cut, n + 1);
    VoicedIsLoud(c, e, base, p.cut);
  }

  lemma Explained(c: Config, e: seq<real>, n: nat, b: nat, before: bool, start: nat, p: Piece, forced: bool)
    requires Begins(c, e, b, before, p.lo, start)
    requires if forced then EndsInCut(c, e, n, start, p) else EndsInPause(c, e, n, start, p)
    ensures PieceExact(c, e, n, b, before, p, forced)
  {}

  lemma PauseExact(c: Config, e: seq<real>, n: nat, s: Scan, b: nat, forced: bool)
    requires c.Valid() && n < |e| && Fits(s, n) && s.speaking && OpenExact(c, e, n, s, b, forced)
    requires Trailing(c, e, s.base, n) < c.split <= Trailing(c, e, s.base, n + 1)
    ensures var p := ClosedPiece(c, e, s.base, n + 1);
            && PieceExact(c, e, n + 1, b, forced, p, false)
            && OpenExact(c, e, n + 1, AfterSilence(c, e, n + 1, s), p.cut, false)
  {
    var p := ClosedPiece(c, e, s.base, n + 1);
    PauseFound(c, e, s.base, n);
    hide ClosedPiece, Trailing, LoudFrames, NoPause, Begins;
    NoPauseBefore(c, e, s.base, s.start, n);
    assert EndsInPause(c, e, n + 1, s.start, p);
    Explained(c, e, n + 1, b, forced, s.start, p, false);
    hide PieceExact;
  }

  lemma NoPauseBefore(c: Config, e: seq<real>, lo: nat, start: nat, n: nat)
    requires NoPause(c, e, lo, start, n)
    ensures forall m: int :: m <= n ==> NoPause(c, e, lo, start, m)
  {}

  lemma CutFound(c: Config, e: seq<real>, start: nat, n: nat)
    requires c.Valid() && start + 1 < n <= |e|
    ensures var q := ForcedCut(c, e, start, n);
            && (forall i :: start < i < n && n - c.quiet <= i ==> e[q] <= e[i])
            && (forall i :: start < i < q && n - c.quiet <= i ==> e[q] < e[i])
  {
    QuietestIsFirstMinimum(e, Max(n - c.quiet, start + 1), n);
  }

  lemma CutExact(c: Config, e: seq<real>, n: nat, s: Scan, b: nat, forced: bool)
    requires c.Valid() && n < |e| && Fits(s, n) && s.speaking && OpenExact(c, e, n, s, b, forced)
    requires Trailing(c, e, s.base, n + 1) < c.split && n + 1 - s.start >= c.maxPhrase
    ensures var q := ForcedCut(c, e, s.start, n + 1);
            var p := Piece(s.base, q, q, true);
            && PieceExact(c, e, n + 1, b, forced, p, true)
            && OpenExact(c, e, n + 1, AfterCut(c, e, n + 1, s), q, true)
  {
    StillNoPause(c, e, s.base, s.start, n);
    CutFound(c, e, s.start, n + 1);
    hide ForcedCut, Trailing, Pause;
    var q := ForcedCut(c, e, s.start, n + 1);
    var p := Piece(s.base, q, q, true);
    assert EndsInCut(c, e, n + 1, s.start, p);
    Explained(c, e, n + 1, b, forced, s.start, p, true);
    NoPauseAfter(c, e, s.base, s.start, q, n + 1);
    hide PieceExact, NoPause, EndsInCut;
  }

  lemma NoPauseAfter(c: Config, e: seq<real>, lo: int, start: int, q: int, n: int)
    requires lo <= start < q && NoPause(c, e, lo, start, n)
    ensures NoPause(c, e, q, q, n)
  {}

  lemma GoesOnExact(c: Config, e: seq<real>, n: nat, s: Scan, b: nat, forced: bool)
    requires c.Valid() && n < |e| && Fits(s, n) && s.speaking && OpenExact(c, e, n, s, b, forced)
    requires Trailing(c, e, s.base, n + 1) < c.split && n + 1 - s.start < c.maxPhrase
    ensures OpenExact(c, e, n + 1, s, b, forced)
  {
    StillNoPause(c, e, s.base, s.start, n);
  }

  lemma PiecesStayExact(c: Config, e: seq<real>, n: nat, ps: seq<Piece>, forced: seq<bool>)
    requires n < |e| && PiecesExact(c, e, n, ps, forced)
    ensures PiecesExact(c, e, n + 1, ps, forced)
  {
    var m := n + 1;
    forall k: nat | k < |ps| ensures ExactAt(c, e, m, ps, forced, k) {
      assert ExactAt(c, e, n, ps, forced, k);
      PieceStaysExact(c, e, n, SettledTo(ps, k), k > 0 && forced[k - 1], ps[k], forced[k]);
    }
  }

  lemma PieceStaysExact(c: Config, e: seq<real>, n: nat, b: nat, before: bool, p: Piece, forced: bool)
    requires n < |e| && PieceExact(c, e, n, b, before, p, forced)
    ensures PieceExact(c, e, n + 1, b, before, p, forced)
  {
    hide Begins, NoPause;
    var start: nat :| Begins(c, e, b, before, p.lo, start)
                      && if forced then EndsInCut(c, e, n, start, p) else EndsInPause(c, e, n, start, p);
    if forced { assert EndsInCut(c, e, n + 1, start, p); } else { assert EndsInPause(c, e, n + 1, start, p); }
  }

  lemma OneMorePiece(c: Config, e: seq<real>, n: nat, ps: seq<Piece>, forced: seq<bool>, p: Piece, cut: bool)
    requires PiecesExact(c, e, n, ps, forced)
    requires PieceExact(c, e, n, SettledTo(ps, |ps|), |ps| > 0 && forced[|ps| - 1], p, cut)
    ensures PiecesExact(c, e, n, ps + [p], forced + [cut])
  {
    hide PieceExact;
    var more, flags := ps + [p], forced + [cut];
    forall k: nat | k < |more| ensures ExactAt(c, e, n, more, flags, k) {
      assert SettledTo(more, k) == SettledTo(ps, k);
      if k < |ps| { assert ExactAt(c, e, n, ps, forced, k); }
    }
  }

  // ----------------------------------------------------------------- all frames

  /** The pieces of any list of frames, and what is open behind them. */
  lemma {:induction false} PiecesExactly(c: Config, e: seq<real>, n: nat) returns (forced: seq<bool>)
    requires c.Valid() && n <= |e|
    ensures var s := ScanOf(c, e, n);
            && PiecesExact(c, e, n, s.pieces, forced)
            && OpenExact(c, e, n, s, SettledTo(s.pieces, |s.pieces|), |forced| > 0 && forced[|forced| - 1])
  {
    hide PiecesExact, OpenExact, OpenOk, Step;
    if n == 0 {
      forced := NothingExact(c, e);
    } else {
      forced := PiecesExactly(c, e, n - 1);
      OpenEnd(c, e, n - 1);
      forced := NextExact(c, e, n - 1, ScanOf(c, e, n - 1), forced);
    }
  }

  lemma NothingExact(c: Config, e: seq<real>) returns (forced: seq<bool>)
    requires c.Valid()
    ensures PiecesExact(c, e, 0, [], forced) && OpenExact(c, e, 0, INITIAL, 0, false) && forced == []
  {
    forced := [];
  }

  lemma NextExact(c: Config, e: seq<real>, n: nat, s: Scan, forced: seq<bool>) returns (flags: seq<bool>)
    requires c.Valid() && n < |e| && Fits(s, n) && OpenOk(c, e, n, s) && PiecesExact(c, e, n, s.pieces, forced)
    requires OpenExact(c, e, n, s, SettledTo(s.pieces, |s.pieces|), |forced| > 0 && forced[|forced| - 1])
    ensures var r := Step(c, e, n, s);
            && PiecesExact(c, e, n + 1, r.pieces, flags)
            && OpenExact(c, e, n + 1, r, SettledTo(r.pieces, |r.pieces|), |flags| > 0 && flags[|flags| - 1])
  {
    var b, f := SettledTo(s.pieces, |s.pieces|), |forced| > 0 && forced[|forced| - 1];
    PiecesStayExact(c, e, n, s.pieces, forced);
    assert |forced| == |s.pieces|;
    hide PiecesExact, OpenExact, PieceExact, ClosedPiece, ForcedCut;
    flags := forced;
    if !s.speaking {
      IdleExact(c, e, n, s, b, f);
    } else if Trailing(c, e, s.base, n + 1) >= c.split {
      var p := ClosedPiece(c, e, s.base, n + 1);
      PauseExact(c, e, n, s, b, f);
      OneMorePiece(c, e, n + 1, s.pieces, forced, p, false);
      flags := forced + [false];
    } else if n + 1 - s.start >= c.maxPhrase {
      var q := ForcedCut(c, e, s.start, n + 1);
      CutExact(c, e, n, s, b, f);
      OneMorePiece(c, e, n + 1, s.pieces, forced, Piece(s.base, q, q, true), true);
      flags := forced + [true];
    } else {
      GoesOnExact(c, e, n, s, b, f);
    }
  }

  /** The piece a flush closes. */
  lemma FlushedExactly(c: Config, e: seq<real>, base: nat, n: nat)
    requires base <= n <= |e|
    ensures var p := ClosedPiece(c, e, base, n);
            && p.lo == base <= p.cut <= n && p.hi == Min(p.cut + c.pad, n)
            && Quiet(c, e, p.cut, n) && (p.cut == base || Loud(c, e, p.cut - 1))
            && (p.kept <==> |LoudFrames(c, e, base, p.cut)| >= c.minSpeech)
  {
    var p := ClosedPiece(c, e, base, n);
    TrailingIsQuiet(c, e, base, n);
    VoicedSplit(c, e, base, p.cut, n);
    VoicedZero(c, e, p.cut, n);
    VoicedIsLoud(c, e, base, p.cut);
  }
}
