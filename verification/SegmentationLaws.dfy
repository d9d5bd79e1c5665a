/** The invariant of the segmentation: what holds after every frame. */
module SegmentationLaws {
  import opened Segmentation

  // ---------------------------------------------------------------- counting

  lemma {:induction false} VoicedSplit(c: Config, e: seq<real>, lo: nat, mid: nat, hi: nat)
    requires lo <= mid <= hi <= |e|
    ensures Voiced(c, e, lo, hi) == Voiced(c, e, lo, mid) + Voiced(c, e, mid, hi)
  {
    if mid < hi { VoicedSplit(c, e, lo, mid, hi - 1); }
  }

  lemma {:induction false} VoicedZero(c: Config, e: seq<real>, lo: nat, hi: nat)
    requires lo <= hi <= |e| && forall i :: lo <= i < hi ==> c.Silent(e[i])
    ensures Voiced(c, e, lo, hi) == 0
  {
    if lo < hi { VoicedZero(c, e, lo, hi - 1); }
  }

  /** The trailing silence is silent, and a voiced frame precedes it. */
  lemma {:induction false} TrailingSilence(c: Config, e: seq<real>, lo: nat, hi: nat)
    requires lo <= hi <= |e|
    ensures forall i :: hi - Trailing(c, e, lo, hi) <= i < hi ==> c.Silent(e[i])
    ensures Trailing(c, e, lo, hi) < hi - lo ==> !c.Silent(e[hi - Trailing(c, e, lo, hi) - 1])
  {
    if lo < hi && c.Silent(e[hi - 1]) { TrailingSilence(c, e, lo, hi - 1); }
  }

  /** Forgetting old frames shortens the trailing silence only when it reaches them. */
  lemma {:induction false} TrailingFrom(c: Config, e: seq<real>, lo: nat, mid: nat, hi: nat)
    requires lo <= mid <= hi <= |e|
    ensures Trailing(c, e, mid, hi) == Min(Trailing(c, e, lo, hi), hi - mid)
  {
    if mid < hi { TrailingFrom(c, e, lo, mid, hi - 1); }
  }

  /** A forced cut falls on the first of the quietest frames. */
  lemma {:induction false} QuietestIsFirstMinimum(e: seq<real>, lo: nat, hi: nat)
    requires lo < hi <= |e|
    ensures forall i :: lo <= i < hi ==> e[Quietest(e, lo, hi)] <= e[i]
    ensures forall i :: lo <= i < Quietest(e, lo, hi) ==> e[Quietest(e, lo, hi)] < e[i]
  {
    if lo + 1 < hi { QuietestIsFirstMinimum(e, lo, hi - 1); }
  }

  // --------------------------------------------------------------- structure

  /** Frame `i` is one of the voiced stretch of `p`. */
  predicate Owns(p: Piece, i: nat) { p.lo <= i < p.cut }

  ghost predicate Owned(ps: seq<Piece>, i: nat) {
    exists k :: 0 <= k < |ps| && Owns(ps[k], i)
  }

  lemma OwnedGrows(ps: seq<Piece>, p: Piece, i: nat)
    requires Owned(ps, i) || Owns(p, i)
    ensures Owned(ps + [p], i)
  {
    if Owned(ps, i) {
      var k :| 0 <= k < |ps| && Owns(ps[k], i);
      assert Owns((ps + [p])[k], i);
    } else {
      assert Owns((ps + [p])[|ps|], i);
    }
  }

  /** How far the padding after a phrase may reach into the padding before the next. */
  function Overlap(c: Config): nat { Max(0, Min(c.split, 2 * c.pad - c.split)) }

  predicate SilentIn(c: Config, e: seq<real>, lo: nat, hi: nat)
    requires hi <= |e|
  {
    forall i :: lo <= i < hi ==> c.Silent(e[i])
  }

  ghost predicate OpenOk(c: Config, e: seq<real>, n: nat, s: Scan)
    requires n <= |e|
  {
    && Fits(s, n)
    && (!s.speaking ==> n - s.base <= c.pad && SilentIn(c, e, s.base, n))
    && (s.speaking ==>
          && s.start - s.base <= c.pad
          && n - s.start < c.maxPhrase
          && Trailing(c, e, s.base, n) < c.split
          && (s.start == s.base || !c.Silent(e[s.start]))
          && SilentIn(c, e, s.base, s.start))
  }

  /** `p` is one of the pieces of the first `n` frames. */
  ghost predicate PieceOk(c: Config, e: seq<real>, n: nat, p: Piece)
    requires n <= |e|
  {
    && p.lo <= p.cut <= p.hi <= n
    && p.hi - p.lo <= c.maxPhrase + c.pad
    && (p.kept ==> p.lo < p.cut)
    && (p.kept ==> Voiced(c, e, p.lo, p.cut) >= c.minSpeech || p.cut - p.lo >= c.maxPhrase - c.quiet)
    && (!p.kept ==> Voiced(c, e, p.lo, p.cut) < c.minSpeech)
    && SilentIn(c, e, p.cut, p.hi)
  }

  ghost predicate PiecesOk(c: Config, e: seq<real>, n: nat, ps: seq<Piece>)
    requires n <= |e|
  {
    && (forall k :: 0 <= k < |ps| ==> PieceOk(c, e, n, ps[k]))
    && (forall k, l :: 0 <= k < l < |ps| ==> ps[k].cut <= ps[l].lo && ps[k].hi <= ps[l].lo + Overlap(c))
    && (forall k, l :: 0 <= k < l < |ps| ==> ps[k].hi <= ps[l].cut)
  }

  ghost predicate FrontierOk(c: Config, e: seq<real>, n: nat, s: Scan)
    requires s.base <= n <= |e|
  {
    && (forall k :: 0 <= k < |s.pieces| ==> s.pieces[k].cut <= s.base && s.pieces[k].hi <= s.base + Overlap(c))
    && (forall k :: 0 <= k < |s.pieces| && s.speaking ==> s.pieces[k].hi <= s.start)
    && (forall i :: 0 <= i < s.base && !c.Silent(e[i]) ==> Owned(s.pieces, i))
  }

  /** Everything that holds after `n` frames. */
  ghost predicate Inv(c: Config, e: seq<real>, n: nat, s: Scan)
    requires n <= |e|
  {
    OpenOk(c, e, n, s) && PiecesOk(c, e, n, s.pieces) && FrontierOk(c, e, n, s)
  }

  lemma PiecesStay(c: Config, e: seq<real>, n: nat, ps: seq<Piece>)
    requires n < |e| && PiecesOk(c, e, n, ps)
    ensures PiecesOk(c, e, n + 1, ps)
  {
    forall k | 0 <= k < |ps| ensures PieceOk(c, e, n + 1, ps[k]) { assert PieceOk(c, e, n, ps[k]); }
  }

  lemma StepIdle(c: Config, e: seq<real>, n: nat, s: Scan)
    requires c.Valid() && n < |e| && Inv(c, e, n, s) && !s.speaking
    ensures Inv(c, e, n + 1, Step(c, e, n, s))
  {
    PiecesStay(c, e, n, s.pieces);
    forall k | 0 <= k < |s.pieces| ensures s.pieces[k].hi <= n { assert PieceOk(c, e, n, s.pieces[k]); }
  }

  /** A phrase closed by silence. */
  lemma ClosedPieceOk(c: Config, e: seq<real>, base: nat, start: nat, n: nat)
    requires c.Valid() && base <= start < n <= |e| && start - base <= c.pad && n - start <= c.maxPhrase
    requires start == base || !c.Silent(e[start])
    ensures var p := ClosedPiece(c, e, base, n);
            PieceOk(c, e, n, p) && start <= p.cut && SilentIn(c, e, p.cut, n)
  {
    var p := ClosedPiece(c, e, base, n);
    TrailingSilence(c, e, base, n);
    VoicedSplit(c, e, base, p.cut, n);
    VoicedZero(c, e, p.cut, n);
  }

  lemma StepClose(c: Config, e: seq<real>, n: nat, s: Scan)
    requires c.Valid() && n < |e| && Inv(c, e, n, s) && s.speaking
    requires Trailing(c, e, s.base, n + 1) >= c.split
    ensures Inv(c, e, n + 1, Step(c, e, n, s))
  {
    hide Voiced, PieceOk;
    PiecesStay(c, e, n, s.pieces);
    ClosedPieceOk(c, e, s.base, s.start, n + 1);
    Extend(c, e, n + 1, s, ClosedPiece(c, e, s.base, n + 1), Step(c, e, n, s));
  }

  lemma StepForce(c: Config, e: seq<real>, n: nat, s: Scan)
    requires c.Valid() && n < |e| && Inv(c, e, n, s) && s.speaking
    requires Trailing(c, e, s.base, n + 1) < c.split && n + 1 - s.start >= c.maxPhrase
    ensures Inv(c, e, n + 1, Step(c, e, n, s))
  {
    hide Voiced, PieceOk, Quietest;
    PiecesStay(c, e, n, s.pieces);
    CutOk(c, e, n + 1, s);
    var q := ForcedCut(c, e, s.start, n + 1);
    Extend(c, e, n + 1, s, Piece(s.base, q, q, true), AfterCut(c, e, n + 1, s));
  }

  lemma CutOk(c: Config, e: seq<real>, n: nat, s: Scan)
    requires c.Valid() && n <= |e| && s.speaking && s.base <= s.start && s.start + 1 < n
    requires s.start - s.base <= c.pad && n - s.start == c.maxPhrase && Trailing(c, e, s.base, n) < c.split
    ensures OpenOk(c, e, n, AfterCut(c, e, n, s))
    ensures var q := ForcedCut(c, e, s.start, n); PieceOk(c, e, n, Piece(s.base, q, q, true))
  {
    TrailingFrom(c, e, s.base, ForcedCut(c, e, s.start, n), n);
  }

  lemma StepOpen(c: Config, e: seq<real>, n: nat, s: Scan)
    requires c.Valid() && n < |e| && Inv(c, e, n, s) && s.speaking
    requires Trailing(c, e, s.base, n + 1) < c.split && n + 1 - s.start < c.maxPhrase
    ensures Inv(c, e, n + 1, Step(c, e, n, s))
  {
    PiecesStay(c, e, n, s.pieces);
  }

  /** Appending the piece that ends the open phrase keeps the pieces in order. */
  lemma Extend(c: Config, e: seq<real>, n: nat, s: Scan, p: Piece, r: Scan)
    requires n <= |e| && PiecesOk(c, e, n, s.pieces) && s.speaking && s.base <= s.start < n
    requires FrontierOk(c, e, n, s)
    requires PieceOk(c, e, n, p) && p.lo == s.base && s.start <= p.cut
    requires r.pieces == s.pieces + [p] && p.cut <= r.base <= n && p.hi <= r.base + Overlap(c)
    requires SilentIn(c, e, p.cut, r.base)
    requires r.speaking ==> p.hi <= r.start && s.start <= r.start
    ensures PiecesOk(c, e, n, r.pieces) && FrontierOk(c, e, n, r)
  {
    ExtendFrontier(c, e, n, s, p, r);
  }

  lemma ExtendFrontier(c: Config, e: seq<real>, n: nat, s: Scan, p: Piece, r: Scan)
    requires s.base <= p.cut <= n <= |e| && s.speaking && FrontierOk(c, e, n, s)
    requires p.lo == s.base
    requires r.pieces == s.pieces + [p] && p.cut <= r.base <= n && p.hi <= r.base + Overlap(c)
    requires SilentIn(c, e, p.cut, r.base)
    requires r.speaking ==> p.hi <= r.start && s.start <= r.start
    ensures FrontierOk(c, e, n, r)
  {
    forall i: nat | i < r.base && !c.Silent(e[i]) ensures Owned(r.pieces, i) {
      OwnedGrows(s.pieces, p, i);
    }
  }

  lemma NoFrames(c: Config, e: seq<real>)
    requires c.Valid()
    ensures Inv(c, e, 0, INITIAL)
  {}

  /** Every list of frames is segmented into ordered pieces that account for it. */
  lemma {:induction false} Structure(c: Config, e: seq<real>, n: nat)
    requires c.Valid() && n <= |e|
    ensures Inv(c, e, n, ScanOf(c, e, n))
  {
    hide Inv, Step;
    if n == 0 {
      NoFrames(c, e);
    } else {
      Structure(c, e, n - 1);
      InvStep(c, e, n - 1, n, ScanOf(c, e, n - 1), ScanOf(c, e, n));
    }
  }

  /** The part of the invariant about the open end. */
  lemma OpenEnd(c: Config, e: seq<real>, n: nat)
    requires c.Valid() && n <= |e|
    ensures OpenOk(c, e, n, ScanOf(c, e, n))
  {
    Structure(c, e, n);
  }

  lemma InvStep(c: Config, e: seq<real>, n: nat, m: nat, s: Scan, r: Scan)
    requires c.Valid() && n < |e| && Inv(c, e, n, s) && m == n + 1 && r == Step(c, e, n, s)
    ensures Inv(c, e, m, r)
  {
    if !s.speaking { StepIdle(c, e, n, s); }
    else if Trailing(c, e, s.base, m) >= c.split { StepClose(c, e, n, s); }
    else if m - s.start >= c.maxPhrase { StepForce(c, e, n, s); }
    else { StepOpen(c, e, n, s); }
  }

  // ----------------------------------------------------------- common prefixes

  ghost predicate SameUpTo(e: seq<real>, f: seq<real>, n: nat) {
    n <= |e| && n <= |f| && forall i :: 0 <= i < n ==> e[i] == f[i]
  }

  lemma {:induction false} CountsSame(c: Config, e: seq<real>, f: seq<real>, lo: nat, hi: nat)
    requires lo <= hi && SameUpTo(e, f, hi)
    ensures Voiced(c, e, lo, hi) == Voiced(c, f, lo, hi) && Trailing(c, e, lo, hi) == Trailing(c, f, lo, hi)
  {
    if lo < hi { CountsSame(c, e, f, lo, hi - 1); }
  }

  lemma {:induction false} QuietestSame(e: seq<real>, f: seq<real>, lo: nat, hi: nat)
    requires lo < hi && SameUpTo(e, f, hi)
    ensures Quietest(e, lo, hi) == Quietest(f, lo, hi)
  {
    if lo + 1 < hi { QuietestSame(e, f, lo, hi - 1); }
  }

  lemma StepSame(c: Config, e: seq<real>, f: seq<real>, n: nat, s: Scan)
    requires c.Valid() && SameUpTo(e, f, n + 1) && Fits(s, n)
    ensures Step(c, e, n, s) == Step(c, f, n, s)
  {
    CountsSame(c, e, f, s.base, n + 1);
    if s.speaking && n + 1 - s.start >= c.maxPhrase {
      QuietestSame(e, f, Max(n + 1 - c.quiet, s.start + 1), n + 1);
    }
  }

  /** The segmentation of the first `n` frames depends on nothing later. */
  lemma {:induction false} ScanSame(c: Config, e: seq<real>, f: seq<real>, n: nat)
    requires c.Valid() && SameUpTo(e, f, n)
    ensures ScanOf(c, e, n) == ScanOf(c, f, n)
  {
    if n > 0 {
      ScanSame(c, e, f, n - 1);
      StepSame(c, e, f, n - 1, ScanOf(c, e, n - 1));
    }
  }
}
