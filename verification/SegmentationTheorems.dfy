/** The promises of the segmenter, for every list of frames. */
module SegmentationTheorems {
  import opened Segmentation
  import opened SegmentationLaws

  // ------------------------------------------------- nothing lost or repeated

  predicate Contains(p: Piece, i: nat) { p.lo <= i < p.hi }

  /** `p` was thrown away: it holds fewer voiced frames than a phrase needs. */
  ghost predicate Discarded(c: Config, e: seq<real>, n: nat, p: Piece)
    requires n <= |e|
  {
    && !p.kept
    && p.lo <= p.cut <= p.hi <= n
    && Voiced(c, e, p.lo, p.cut) < c.minSpeech
    && SilentIn(c, e, p.cut, p.hi)
  }

  /** In a list of pieces that fit together, a voiced frame is in the one that owns it
      and in no other, and every piece is a phrase or was discarded. */
  lemma KeptOnce(c: Config, e: seq<real>, n: nat, ps: seq<Piece>, i: nat)
    requires n <= |e| && PiecesOk(c, e, n, ps) && i < n && !c.Silent(e[i])
    ensures Owned(ps, i) <==> exists k :: 0 <= k < |ps| && Contains(ps[k], i)
    ensures forall k, l | 0 <= k < |ps| && 0 <= l < |ps| :: Contains(ps[k], i) && Contains(ps[l], i) ==> k == l
    ensures forall k :: 0 <= k < |ps| ==> ps[k].kept || Discarded(c, e, n, ps[k])
  {
    forall k | 0 <= k < |ps|
      ensures Contains(ps[k], i) <==> Owns(ps[k], i)
      ensures ps[k].kept || Discarded(c, e, n, ps[k])
    {
      assert PieceOk(c, e, n, ps[k]);
    }
  }

  /** In such a list, phrases start in order; only neighbours can share frames, at most
      `min(split, 2 * pad - split)` of them, and those are silent. */
  predicate InOrder(c: Config, e: seq<real>, n: nat, ps: seq<Piece>, k: nat, l: nat)
    requires n <= |e| && k < l < |ps|
  {
    var p, q := ps[k], ps[l];
    && p.lo < p.hi <= n && q.lo < q.hi <= n
    && p.lo < q.lo
    && p.hi - q.lo <= Overlap(c)
    && (c.split >= 2 * c.pad || k + 1 < l ==> p.hi <= q.lo)
    && SilentIn(c, e, q.lo, p.hi)
  }

  lemma PiecesInOrder(c: Config, e: seq<real>, n: nat, ps: seq<Piece>, k: nat, l: nat)
    requires n <= |e| && PiecesOk(c, e, n, ps) && k < l < |ps| && ps[k].kept && ps[l].kept
    ensures InOrder(c, e, n, ps, k, l)
  {
    assert PieceOk(c, e, n, ps[k]) && PieceOk(c, e, n, ps[l]);
    if k + 1 < l { assert ps[k].hi <= ps[k + 1].cut <= ps[l].lo; }
  }

  /** A voiced frame is either still buffered or in exactly one finished piece, and
      every finished piece is a phrase or was discarded for lack of speech. */
  lemma VoicedFramesKept(c: Config, e: seq<real>, n: nat, i: nat)
    requires c.Valid() && i < n <= |e| && !c.Silent(e[i])
    ensures var s := ScanOf(c, e, n);
            && (i < s.base <==> exists k :: 0 <= k < |s.pieces| && Contains(s.pieces[k], i))
            && (forall k, l | 0 <= k < |s.pieces| && 0 <= l < |s.pieces| ::
                  Contains(s.pieces[k], i) && Contains(s.pieces[l], i) ==> k == l)
            && (forall k :: 0 <= k < |s.pieces| ==> s.pieces[k].kept || Discarded(c, e, n, s.pieces[k]))
  {
    Structure(c, e, n);
    hide ScanOf, PiecesOk;
    KeptOnce(c, e, n, ScanOf(c, e, n).pieces, i);
  }

  /** The phrases emitted so far are in order. */
  lemma PhrasesInOrder(c: Config, e: seq<real>, n: nat, k: nat, l: nat)
    requires c.Valid() && n <= |e| && k < l < |ScanOf(c, e, n).pieces|
    requires ScanOf(c, e, n).pieces[k].kept && ScanOf(c, e, n).pieces[l].kept
    ensures InOrder(c, e, n, ScanOf(c, e, n).pieces, k, l)
  {
    Structure(c, e, n);
    hide ScanOf, PiecesOk, InOrder;
    PiecesInOrder(c, e, n, ScanOf(c, e, n).pieces, k, l);
  }

  // --------------------------------------------------------- a whole recording

  /** The pieces of a recording that is fed `n` frames and then flushed: a flush closes
      the open phrase, if there is one, as silence would. */
  function WholePieces(c: Config, e: seq<real>, n: nat): seq<Piece>
    requires c.Valid() && n <= |e|
  {
    var s := ScanOf(c, e, n);
    if s.speaking then s.pieces + [ClosedPiece(c, e, s.base, n)] else s.pieces
  }

  /** The flushed piece is a piece like the others, behind all of them. */
  lemma FlushedPiece(c: Config, e: seq<real>, n: nat)
    requires c.Valid() && n <= |e| && ScanOf(c, e, n).speaking
    ensures var s := ScanOf(c, e, n);
            var p := ClosedPiece(c, e, s.base, n);
            PieceOk(c, e, n, p) && s.start <= p.cut && SilentIn(c, e, p.cut, n)
  {
    Structure(c, e, n);
    var s := ScanOf(c, e, n);
    ClosedPieceOk(c, e, s.base, s.start, n);
  }

  /** The invariant of the pieces extends to the flushed one, and nothing voiced is left
      over. */
  lemma WholeStructure(c: Config, e: seq<real>, n: nat)
    requires c.Valid() && n <= |e|
    ensures PiecesOk(c, e, n, WholePieces(c, e, n))
    ensures forall i :: 0 <= i < n && !c.Silent(e[i]) ==> Owned(WholePieces(c, e, n), i)
  {
    Structure(c, e, n);
    var s := ScanOf(c, e, n);
    if s.speaking {
      FlushedPiece(c, e, n);
      var p := ClosedPiece(c, e, s.base, n);
      hide ClosedPiece, ScanOf, PieceOk, Overlap;
      forall i | 0 <= i < n && !c.Silent(e[i]) ensures Owned(s.pieces + [p], i) { OwnedGrows(s.pieces, p, i); }
    }
  }

  /** Every voiced frame of a recording is in exactly one piece, and every piece is an
      emitted or flushed phrase, or was discarded for lack of speech. */
  lemma RecordingKept(c: Config, e: seq<real>, n: nat, i: nat)
    requires c.Valid() && i < n <= |e| && !c.Silent(e[i])
    ensures var ps := WholePieces(c, e, n);
            && (exists k :: 0 <= k < |ps| && Contains(ps[k], i))
            && (forall k, l | 0 <= k < |ps| && 0 <= l < |ps| :: Contains(ps[k], i) && Contains(ps[l], i) ==> k == l)
            && (forall k :: 0 <= k < |ps| ==> ps[k].kept || Discarded(c, e, n, ps[k]))
  {
    WholeStructure(c, e, n);
    hide WholePieces, PiecesOk;
    KeptOnce(c, e, n, WholePieces(c, e, n), i);
  }

  /** The phrases of a recording, the flushed one included, are in order. */
  lemma RecordingInOrder(c: Config, e: seq<real>, n: nat, k: nat, l: nat)
    requires c.Valid() && n <= |e| && k < l < |WholePieces(c, e, n)|
    requires WholePieces(c, e, n)[k].kept && WholePieces(c, e, n)[l].kept
    ensures InOrder(c, e, n, WholePieces(c, e, n), k, l)
  {
    WholeStructure(c, e, n);
    hide WholePieces, PiecesOk, InOrder;
    PiecesInOrder(c, e, n, WholePieces(c, e, n), k, l);
  }

  function ShortestPhrase(c: Config): nat { Max(1, Min(c.minSpeech, c.maxPhrase - c.quiet)) }

  /** Phrases and the buffer are bounded, and a phrase is never too short. */
  lemma PhraseSizes(c: Config, e: seq<real>, n: nat)
    requires c.Valid() && n <= |e|
    ensures var s := ScanOf(c, e, n);
            && n - s.base < c.maxPhrase + c.pad
            && (!s.speaking ==> n - s.base <= c.pad)
            && forall k :: 0 <= k < |s.pieces| && s.pieces[k].kept ==>
                 ShortestPhrase(c) <= s.pieces[k].hi - s.pieces[k].lo <= c.maxPhrase + c.pad
  {
    Structure(c, e, n);
    var s := ScanOf(c, e, n);
    forall k | 0 <= k < |s.pieces| && s.pieces[k].kept
      ensures ShortestPhrase(c) <= s.pieces[k].hi - s.pieces[k].lo <= c.maxPhrase + c.pad
    {
      assert PieceOk(c, e, n, s.pieces[k]);
    }
  }

  // ----------------------------------------------------- silence ends a phrase

  /** While idle, silence keeps the splitter idle and only moves the buffer on. */
  lemma {:induction false} SilenceStaysIdle(c: Config, e: seq<real>, n: nat, m: nat)
    requires c.Valid() && n <= m <= |e| && !ScanOf(c, e, n).speaking && SilentIn(c, e, n, m)
    ensures ScanOf(c, e, m) == ScanOf(c, e, n).(base := Max(ScanOf(c, e, n).base, m - c.pad))
  {
    if n < m {
      SilenceStaysIdle(c, e, n, m - 1);
    } else {
      OpenEnd(c, e, n);
    }
  }

  /** How many more silent frames end the open phrase at the latest.  A forced cut
      inside the silence restarts the count, but leaves an all-silent phrase that
      cannot be cut again in time. */
  function SilenceNeeded(c: Config, e: seq<real>, base: nat, n: nat): int
    requires base <= n <= |e|
  {
    var t := Trailing(c, e, base, n);
    if t == n - base then c.split - t else 2 * c.split - 1 - t
  }

  lemma SilentFrameCounts(c: Config, e: seq<real>, n: nat)
    requires c.Valid() && c.split <= c.maxPhrase && n < |e| && ScanOf(c, e, n).speaking && c.Silent(e[n])
    ensures var s, s' := ScanOf(c, e, n), ScanOf(c, e, n + 1);
            s'.speaking ==> SilenceNeeded(c, e, s'.base, n + 1) < SilenceNeeded(c, e, s.base, n)
  {
    OpenEnd(c, e, n);
    var s, s' := ScanOf(c, e, n), ScanOf(c, e, n + 1);
    if s'.speaking { TrailingFrom(c, e, s.base, s'.base, n + 1); }
  }

  lemma {:induction false} SilenceEnds(c: Config, e: seq<real>, n: nat, m: nat)
    requires c.Valid() && c.split <= c.maxPhrase && n <= m <= |e|
    requires ScanOf(c, e, n).speaking && SilentIn(c, e, n, m)
    requires m - n >= SilenceNeeded(c, e, ScanOf(c, e, n).base, n)
    ensures !ScanOf(c, e, m).speaking
    decreases m - n
  {
    OpenEnd(c, e, n);
    SilentFrameCounts(c, e, n);
    if ScanOf(c, e, n + 1).speaking { SilenceEnds(c, e, n + 1, m); } else { SilenceStaysIdle(c, e, n + 1, m); }
  }

  /** With phrases shorter than the required silence, nothing ends a phrase but a cut. */
  lemma {:induction false} NeverEnds(c: Config, e: seq<real>, n: nat, m: nat)
    requires c.Valid() && c.maxPhrase < c.split && n <= m <= |e| && ScanOf(c, e, n).speaking
    ensures ScanOf(c, e, m).speaking
  {
    if n < m {
      NeverEnds(c, e, n, m - 1);
      OpenEnd(c, e, m - 1);
      TooShortToEnd(c, e, m - 1, ScanOf(c, e, m - 1));
    }
  }

  lemma TooShortToEnd(c: Config, e: seq<real>, n: nat, s: Scan)
    requires c.Valid() && c.maxPhrase < c.split && n < |e| && s.speaking && OpenOk(c, e, n, s)
    ensures Step(c, e, n, s).speaking
  {
    TrailingSilence(c, e, s.base, n);
  }

  /** Silence always ends an open phrase, within `2 * split - 1` frames and whatever
      forced cuts happen meanwhile, exactly when a phrase may be as long as the
      silence that ends it. */
  lemma SilenceEndsPhraseIff(c: Config)
    requires c.Valid()
    ensures c.split <= c.maxPhrase <==>
            forall e: seq<real>, n: nat | n + 2 * c.split - 1 <= |e| ::
              ScanOf(c, e, n).speaking && SilentIn(c, e, n, n + 2 * c.split - 1)
              ==> !ScanOf(c, e, n + 2 * c.split - 1).speaking
  {
    if c.split <= c.maxPhrase {
      forall e: seq<real>, n: nat | n + 2 * c.split - 1 <= |e|
        ensures ScanOf(c, e, n).speaking && SilentIn(c, e, n, n + 2 * c.split - 1)
                ==> !ScanOf(c, e, n + 2 * c.split - 1).speaking
      {
        if ScanOf(c, e, n).speaking && SilentIn(c, e, n, n + 2 * c.split - 1) {
          SilenceEnds(c, e, n, n + 2 * c.split - 1);
        }
      }
    } else {
      var e := seq(2 * c.split, i => if i == 0 then c.threshold else c.threshold - 1.0);
      assert ScanOf(c, e, 0) == INITIAL;
      assert ScanOf(c, e, 1).speaking;
      NeverEnds(c, e, 1, 2 * c.split);
      assert SilentIn(c, e, 1, 1 + 2 * c.split - 1);
    }
  }

  // ------------------------------------------------------ offline segmentation

  /** The first voiced frame at or after `i`. */
  function FirstVoiced(c: Config, e: seq<real>, i: nat): (v: nat)
    requires i <= |e|
    ensures i <= v <= |e| && (v < |e| ==> !c.Silent(e[v])) && SilentIn(c, e, i, v)
    decreases |e| - i
  {
    if i == |e| || !c.Silent(e[i]) then i else FirstVoiced(c, e, i + 1)
  }

  /** Does a phrase buffered from `base` and measured from `start` end with the
      first `m` frames? */
  predicate EndsAt(c: Config, e: seq<real>, base: nat, start: nat, m: nat)
    requires base <= m <= |e|
  {
    Trailing(c, e, base, m) >= c.split || m - start >= c.maxPhrase
  }

  /** The first place after `m` where an open phrase ends, or `|e| + 1`. */
  function FirstEnd(c: Config, e: seq<real>, base: nat, start: nat, m: nat): (n: nat)
    requires base < m <= |e| + 1
    ensures m <= n <= |e| + 1 && (n <= |e| ==> EndsAt(c, e, base, start, n))
    ensures forall j :: m <= j < n ==> !EndsAt(c, e, base, start, j)
    decreases |e| + 1 - m
  {
    if m == |e| + 1 || EndsAt(c, e, base, start, m) then m else FirstEnd(c, e, base, start, m + 1)
  }

  /** Segmentation of a complete recording, phrase by phrase: find where speech
      begins, find where it ends, go on from there. */
  function Offline(c: Config, e: seq<real>, n: nat, s: Scan): Scan
    requires c.Valid() && n <= |e| && Fits(s, n)
    decreases |e| - n
  {
    if n == |e| then s
    else if !s.speaking then
      var v := FirstVoiced(c, e, n);
      if v == |e| then s.(base := Max(s.base, v - c.pad))
      else Offline(c, e, v + 1, Scan(true, Max(s.base, v - c.pad), v, s.pieces))
    else
      var m := FirstEnd(c, e, s.base, s.start, n + 1);
      if m > |e| then s
      else if Trailing(c, e, s.base, m) >= c.split then Offline(c, e, m, AfterSilence(c, e, m, s))
      else Offline(c, e, m, AfterCut(c, e, m, s))
  }

  /** Until it ends, an open phrase does not change. */
  lemma {:induction false} StaysOpen(c: Config, e: seq<real>, n: nat, m: nat, s: Scan)
    requires c.Valid() && n <= m <= |e| && s == ScanOf(c, e, n) && s.speaking
    requires forall j :: n < j <= m ==> !EndsAt(c, e, s.base, s.start, j)
    ensures ScanOf(c, e, m) == s
    decreases m - n
  {
    if n < m {
      StaysOpen(c, e, n, m - 1, s);
      assert !EndsAt(c, e, s.base, s.start, m);
    }
  }

  lemma {:induction false} OfflineFrom(c: Config, e: seq<real>, n: nat, s: Scan)
    requires c.Valid() && n <= |e| && s == ScanOf(c, e, n)
    ensures Offline(c, e, n, s) == ScanOf(c, e, |e|)
    decreases |e| - n, 1
  {
    if n < |e| {
      if s.speaking { OfflineOpen(c, e, n, s); } else { OfflineIdle(c, e, n, s); }
    }
  }

  lemma {:induction false} OfflineOpen(c: Config, e: seq<real>, n: nat, s: Scan)
    requires c.Valid() && n < |e| && s == ScanOf(c, e, n) && s.speaking
    ensures Offline(c, e, n, s) == ScanOf(c, e, |e|)
    decreases |e| - n, 0
  {
    var m := FirstEnd(c, e, s.base, s.start, n + 1);
    hide Voiced, Trailing, ForcedCut, ClosedPiece;
    StaysOpen(c, e, n, m - 1, s);
    if m <= |e| {
      var r := ScanOf(c, e, m);
      assert r == if Trailing(c, e, s.base, m) >= c.split then AfterSilence(c, e, m, s) else AfterCut(c, e, m, s);
      OfflineFrom(c, e, m, r);
    }
  }

  lemma {:induction false} OfflineIdle(c: Config, e: seq<real>, n: nat, s: Scan)
    requires c.Valid() && n < |e| && s == ScanOf(c, e, n) && !s.speaking
    ensures Offline(c, e, n, s) == ScanOf(c, e, |e|)
    decreases |e| - n, 0
  {
    var v := FirstVoiced(c, e, n);
    if v < |e| {
      SpeechOpens(c, e, n, v, s);
      OfflineSpeech(c, e, n, v, s);
    } else {
      SilenceStaysIdle(c, e, n, v);
    }
  }

  lemma {:induction false} OfflineSpeech(c: Config, e: seq<real>, n: nat, v: nat, s: Scan)
    requires c.Valid() && n <= v < |e| && v == FirstVoiced(c, e, n) && Fits(s, n) && !s.speaking
    requires ScanOf(c, e, v + 1) == Scan(true, Max(s.base, v - c.pad), v, s.pieces)
    ensures Offline(c, e, n, s) == ScanOf(c, e, |e|)
    decreases |e| - v - 1, 2
  {
    hide FirstVoiced, Step;
    OfflineFrom(c, e, v + 1, ScanOf(c, e, v + 1));
  }

  lemma SpeechOpens(c: Config, e: seq<real>, n: nat, v: nat, s: Scan)
    requires c.Valid() && n <= v < |e| && s == ScanOf(c, e, n) && !s.speaking
    requires SilentIn(c, e, n, v) && !c.Silent(e[v])
    ensures ScanOf(c, e, v + 1) == Scan(true, Max(s.base, v - c.pad), v, s.pieces)
  {
    SilenceStaysIdle(c, e, n, v);
  }

  /** Frame-by-frame segmentation equals segmenting the complete recording. */
  lemma OfflineAgrees(c: Config, e: seq<real>)
    requires c.Valid()
    ensures ScanOf(c, e, |e|) == Offline(c, e, 0, INITIAL)
  {
    OfflineFrom(c, e, 0, INITIAL);
  }

  /** More frames only add pieces. */
  lemma {:induction false} PiecesGrow(c: Config, e: seq<real>, n: nat, m: nat)
    requires c.Valid() && n <= m <= |e|
    ensures ScanOf(c, e, n).pieces <= ScanOf(c, e, m).pieces
  {
    if n < m { PiecesGrow(c, e, n, m - 1); }
  }
}
