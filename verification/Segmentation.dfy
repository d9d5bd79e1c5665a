/** Silence-delimited segmentation of a list of frame energies.

    This is the frame-level specification of the phrase splitter.  All frame
    numbers are absolute: they count from the first frame fed since the splitter
    was created or last flushed.  The counters the splitter keeps (voiced frames,
    trailing silence) do not occur here; they are recomputed from the energies. */
module Segmentation {

  datatype Config = Config(
    threshold: real,
    split: nat,       // silent frames that end a phrase
    minSpeech: nat,   // voiced frames a phrase needs to be emitted
    maxPhrase: nat,   // frames after which a phrase is cut by force
    pad: nat,         // silent frames kept around a phrase
    quiet: nat        // frames searched for the quietest cut point
  ) {
    predicate Valid() {
      split >= 1 && minSpeech >= 1 && maxPhrase >= 2 && quiet >= 1
    }

    predicate Silent(energy: real) { energy < threshold }
  }

  function Max(a: int, b: int): int { if a < b then b else a }
  function Min(a: int, b: int): int { if a < b then a else b }

  /** Number of voiced frames among `lo..hi`. */
  function Voiced(c: Config, e: seq<real>, lo: nat, hi: nat): (n: nat)
    requires lo <= hi <= |e|
    ensures n <= hi - lo
  {
    if lo == hi then 0
    else Voiced(c, e, lo, hi - 1) + if c.Silent(e[hi - 1]) then 0 else 1
  }

  /** Length of the longest silent run that ends `lo..hi`. */
  function Trailing(c: Config, e: seq<real>, lo: nat, hi: nat): (n: nat)
    requires lo <= hi <= |e|
    ensures n <= hi - lo
  {
    if lo == hi || !c.Silent(e[hi - 1]) then 0
    else 1 + Trailing(c, e, lo, hi - 1)
  }

  /** The first quietest frame among `lo..hi`. */
  function Quietest(e: seq<real>, lo: nat, hi: nat): (q: nat)
    requires lo < hi <= |e|
    ensures lo <= q < hi
  {
    if lo + 1 == hi then lo
    else
      var q := Quietest(e, lo, hi - 1);
      if e[hi - 1] < e[q] then hi - 1 else q
  }

  /** A finished stretch of frames.  When `kept`, the frames `lo..hi` form a
      phrase.  Voiced frames lie in `lo..cut`; `cut..hi` is trailing padding. */
  datatype Piece = Piece(lo: nat, hi: nat, cut: nat, kept: bool)

  /** What is known after some frames: whether a phrase is open, the first frame
      still buffered, the frame the open phrase is measured from, and everything
      finished so far. */
  datatype Scan = Scan(speaking: bool, base: nat, start: nat, pieces: seq<Piece>)

  const INITIAL := Scan(false, 0, 0, [])

  /** `s` describes `n` frames. */
  predicate Fits(s: Scan, n: nat) {
    s.base <= n && (s.speaking ==> s.base <= s.start < n)
  }

  /** The frame at which a phrase that is too long after `n` frames is cut. */
  function ForcedCut(c: Config, e: seq<real>, start: nat, n: nat): (q: nat)
    requires c.Valid() && start + 1 < n <= |e|
    ensures start < q < n && n - c.quiet <= q
  {
    Quietest(e, Max(n - c.quiet, start + 1), n)
  }

  /** The piece that the silence before frame `n` closes. */
  function ClosedPiece(c: Config, e: seq<real>, base: nat, n: nat): (p: Piece)
    requires base <= n <= |e|
    ensures base == p.lo <= p.cut <= p.hi <= n
  {
    var cut := n - Trailing(c, e, base, n);
    Piece(base, Min(cut + c.pad, n), cut, Voiced(c, e, base, n) >= c.minSpeech)
  }

  /** The open phrase ends with the silence before frame `n`. */
  function AfterSilence(c: Config, e: seq<real>, n: nat, s: Scan): Scan
    requires s.base <= n <= |e|
  {
    var p := ClosedPiece(c, e, s.base, n);
    Scan(false, Max(n - c.pad, p.cut), 0, s.pieces + [p])
  }

  /** The open phrase is cut at the quietest recent frame before `n`. */
  function AfterCut(c: Config, e: seq<real>, n: nat, s: Scan): Scan
    requires c.Valid() && s.start + 1 < n <= |e|
  {
    var q := ForcedCut(c, e, s.start, n);
    Scan(true, q, q, s.pieces + [Piece(s.base, q, q, true)])
  }

  /** The effect of frame `n` on what is known about the frames before it. */
  function Step(c: Config, e: seq<real>, n: nat, s: Scan): (r: Scan)
    requires c.Valid() && n < |e| && Fits(s, n)
    ensures Fits(r, n + 1)
  {
    if !s.speaking then
      if c.Silent(e[n]) then s.(base := Max(s.base, n + 1 - c.pad))
      else Scan(true, s.base, n, s.pieces)
    else if Trailing(c, e, s.base, n + 1) >= c.split then AfterSilence(c, e, n + 1, s)
    else if n + 1 - s.start >= c.maxPhrase then AfterCut(c, e, n + 1, s)
    else s
  }

  /** Frame-by-frame segmentation of the first `n` frames. */
  function ScanOf(c: Config, e: seq<real>, n: nat): (s: Scan)
    requires c.Valid() && n <= |e|
    ensures Fits(s, n)
  {
    if n == 0 then INITIAL else Step(c, e, n - 1, ScanOf(c, e, n - 1))
  }
}
