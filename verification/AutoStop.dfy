/** Automatic stop: silence after confirmed speech ends a recording. */
module AutoStop {
  import opened Integers
  import opened PhraseSplitting

  // ------------------------------------------------ what the history of chunks says

  /** A chunk as the detector hears it: its length, and whether it is loud enough. */
  datatype Heard = Heard(count: nat, voiced: bool)

  /** The samples of the voiced chunks at the end of the first `n`. */
  function VoicedSuffix(hs: seq<Heard>, n: nat): nat
    requires n <= |hs|
  {
    if n == 0 || !hs[n - 1].voiced then 0 else VoicedSuffix(hs, n - 1) + hs[n - 1].count
  }

  /** The samples of chunks `lo` up to `hi`. */
  function Samples(hs: seq<Heard>, lo: nat, hi: nat): nat
    requires lo <= hi <= |hs|
  {
    if lo == hi then 0 else Samples(hs, lo, hi - 1) + hs[hi - 1].count
  }

  /** The `n`-th chunk is voiced and completes a voiced stretch long enough to count
      as speech. */
  predicate Confirms(hs: seq<Heard>, n: nat, confirmation: nat)
    requires n <= |hs|
  {
    n > 0 && hs[n - 1].voiced && VoicedSuffix(hs, n) >= confirmation
  }

  /** The last confirming chunk among the first `n`, or 0. */
  function LastSpeech(hs: seq<Heard>, n: nat, confirmation: nat): (k: nat)
    requires n <= |hs|
    ensures k <= n
  {
    if n == 0 || Confirms(hs, n, confirmation) then n else LastSpeech(hs, n - 1, confirmation)
  }

  /** After the first `n` chunks there has been speech, and since the last of it the
      timeout has passed. */
  predicate Fires(hs: seq<Heard>, n: nat, confirmation: nat, timeout: nat)
    requires n <= |hs|
  {
    var k := LastSpeech(hs, n, confirmation);
    k > 0 && Samples(hs, k, n) >= timeout
  }

  lemma {:induction false} LastSpeechIsLast(hs: seq<Heard>, n: nat, c: nat, j: nat)
    requires n <= |hs|
    ensures var k := LastSpeech(hs, n, c);
            && (k > 0 ==> Confirms(hs, k, c))
            && (k < j <= n ==> !Confirms(hs, j, c))
  {
    if n > 0 && !Confirms(hs, n, c) { LastSpeechIsLast(hs, n - 1, c, if j < n then j else 0); }
  }

  /** The detector fires exactly when some chunk confirmed speech, none has since, and
      the samples since then fill the timeout. */
  lemma FiresIff(hs: seq<Heard>, n: nat, c: nat, timeout: nat)
    requires n <= |hs|
    ensures Fires(hs, n, c, timeout) <==>
              exists k :: 0 < k <= n && Confirms(hs, k, c) && Samples(hs, k, n) >= timeout
                          && forall j :: k < j <= n ==> !Confirms(hs, j, c)
  {
    var k := LastSpeech(hs, n, c);
    LastSpeechIsLast(hs, n, c, 0);
    forall j | k < j <= n ensures !Confirms(hs, j, c) { LastSpeechIsLast(hs, n, c, j); }
    forall i | 0 < i <= n && Confirms(hs, i, c) && forall j :: i < j <= n ==> !Confirms(hs, j, c) ensures i == k {
      LastSpeechIsLast(hs, n, c, i);
    }
  }

  /** Samples add up. */
  lemma {:induction false} SamplesSplit(hs: seq<Heard>, lo: nat, mid: nat, hi: nat)
    requires lo <= mid <= hi <= |hs|
    ensures Samples(hs, lo, hi) == Samples(hs, lo, mid) + Samples(hs, mid, hi)
    ensures lo < |hs| ==> Samples(hs, lo, lo + 1) == hs[lo].count
    ensures Samples(hs, lo, lo) == 0
  {
    if mid < hi { SamplesSplit(hs, lo, mid, hi - 1); }
  }

  /** Chunks `lo` up to `n` are all voiced. */
  predicate AllVoiced(hs: seq<Heard>, lo: nat, n: nat)
    requires n <= |hs|
  {
    forall i :: lo <= i < n ==> hs[i].voiced
  }

  lemma {:induction false} SuffixIs(hs: seq<Heard>, n: nat) returns (lo: nat)
    requires n <= |hs|
    ensures lo <= n && AllVoiced(hs, lo, n) && (lo > 0 ==> !hs[lo - 1].voiced)
    ensures VoicedSuffix(hs, n) == Samples(hs, lo, n)
  {
    if n == 0 || !hs[n - 1].voiced {
      lo := n;
    } else {
      lo := SuffixIs(hs, n - 1);
    }
  }

  /** A chunk confirms speech exactly if it ends a voiced stretch that is long enough. */
  lemma ConfirmsIff(hs: seq<Heard>, n: nat, c: nat)
    requires n <= |hs|
    ensures Confirms(hs, n, c) <==>
              exists lo: nat :: lo < n && AllVoiced(hs, lo, n) && Samples(hs, lo, n) >= c
  {
    var from := SuffixIs(hs, n);
    forall lo: nat | lo < n && AllVoiced(hs, lo, n) && Samples(hs, lo, n) >= c ensures Confirms(hs, n, c) {
      assert from <= lo;
      SamplesSplit(hs, from, lo, n);
    }
    if Confirms(hs, n, c) { assert from < n && AllVoiced(hs, from, n); }
  }

  // ------------------------------------------------------------------ the detector

  /** Whole samples in so many milliseconds, as far as 64 bits go. */
  function InSamples(ms: nat, sampleRate: nat): (n: nat)
    ensures n * 1000 <= ms * sampleRate
    ensures if ms * sampleRate < U64_MAX then ms * sampleRate < (n + 1) * 1000 else U64_MAX < (n + 1) * 1000
  {
    Saturate(ms * sampleRate) / 1000
  }

  class AutoStopDetector {
    const energy: Energy
    const threshold: real
    const timeoutSamples: nat
    const confirmationSamples: nat
    var silentSamples: nat
    var voicedCandidateSamples: nat
    var speechDetected: bool
    ghost var heard: seq<Heard>

    ghost predicate Valid()
      reads this
    {
      var n := |heard|;
      var k := LastSpeech(heard, n, confirmationSamples);
      && timeoutSamples <= U64_MAX && confirmationSamples <= U64_MAX
      && voicedCandidateSamples == Saturate(VoicedSuffix(heard, n))
      && speechDetected == (k > 0)
      && silentSamples == if k > 0 then Saturate(Samples(heard, k, n)) else 0
    }

    constructor WithConfirmation(energy: Energy, threshold: real, timeoutMs: nat, confirmationMs: nat, sampleRate: nat)
      ensures Valid() && heard == [] && this.energy == energy && this.threshold == threshold
      ensures confirmationMs * sampleRate < U64_MAX ==>
                confirmationSamples * 1000 <= confirmationMs * sampleRate < (confirmationSamples + 1) * 1000
      ensures 1000 <= timeoutMs * sampleRate < U64_MAX ==>
                timeoutSamples * 1000 <= timeoutMs * sampleRate < (timeoutSamples + 1) * 1000
      ensures timeoutMs * sampleRate < 1000 ==> timeoutSamples == 1
      ensures confirmationSamples == InSamples(confirmationMs, sampleRate)
      ensures timeoutSamples == if InSamples(timeoutMs, sampleRate) == 0 then 1 else InSamples(timeoutMs, sampleRate)
    {
      this.energy, this.threshold := energy, threshold;
      var timeout := InSamples(timeoutMs, sampleRate);
      timeoutSamples := if timeout < 1 then 1 else timeout;
      confirmationSamples := InSamples(confirmationMs, sampleRate);
      silentSamples, voicedCandidateSamples, speechDetected := 0, 0, false;
      heard := [];
    }

    /** Hears one more chunk and says whether to stop. */
    method Feed(samples: seq<Sample>) returns (fired: bool)
      requires Valid()
      modifies this
      ensures Valid() && heard == old(heard) + [Heard(|samples|, energy(samples) >= threshold)]
      ensures fired == Fires(heard, |heard|, confirmationSamples, timeoutSamples)
    {
      hide LastSpeech, VoicedSuffix, Samples, Confirms;
      ghost var h := Heard(|samples|, energy(samples) >= threshold);
      HearingMore(heard, h, confirmationSamples);
      var count := Saturate(|samples|);
      if energy(samples) >= threshold {
        voicedCandidateSamples := Saturate(voicedCandidateSamples + count);
        if !speechDetected && voicedCandidateSamples >= confirmationSamples {
          speechDetected := true;
          silentSamples := 0;
        } else if speechDetected && voicedCandidateSamples >= confirmationSamples {
          silentSamples := 0;
        } else if speechDetected {
          silentSamples := Saturate(silentSamples + count);
        }
      } else {
        voicedCandidateSamples := 0;
        if speechDetected { silentSamples := Saturate(silentSamples + count); }
      }
      fired := speechDetected && silentSamples >= timeoutSamples;
      heard := heard + [h];
    }

    method Reset()
      requires Valid()
      modifies this
      ensures Valid() && heard == []
    {
      silentSamples, voicedCandidateSamples, speechDetected := 0, 0, false;
      heard := [];
    }
  }

  lemma {:induction false} SamePrefix(hs: seq<Heard>, h: Heard, n: nat, c: nat)
    requires n <= |hs|
    ensures VoicedSuffix(hs + [h], n) == VoicedSuffix(hs, n)
    ensures LastSpeech(hs + [h], n, c) == LastSpeech(hs, n, c)
  {
    if n > 0 { SamePrefix(hs, h, n - 1, c); }
  }

  lemma {:induction false} SameSamples(hs: seq<Heard>, h: Heard, k: nat, n: nat)
    requires k <= n <= |hs|
    ensures Samples(hs + [h], k, n) == Samples(hs, k, n)
  {
    if k < n { SameSamples(hs, h, k, n - 1); }
  }

  /** One more chunk extends the voiced stretch or breaks it, and either is speech or
      adds to the silence. */
  lemma HearingMore(hs: seq<Heard>, h: Heard, c: nat)
    ensures var n := |hs|;
            var all := hs + [h];
            && VoicedSuffix(all, n + 1) == (if h.voiced then VoicedSuffix(hs, n) + h.count else 0)
            && (Confirms(all, n + 1, c) <==> h.voiced && VoicedSuffix(all, n + 1) >= c)
            && LastSpeech(all, n + 1, c) == (if Confirms(all, n + 1, c) then n + 1 else LastSpeech(hs, n, c))
            && Samples(all, LastSpeech(hs, n, c), n + 1) == Samples(hs, LastSpeech(hs, n, c), n) + h.count
            && Samples(all, n + 1, n + 1) == 0
  {
    SamePrefix(hs, h, |hs|, c);
    SameSamples(hs, h, LastSpeech(hs, |hs|, c), |hs|);
  }

  // ----------------------------------------------------------------- the forwarder

  /** The detector's history of the first chunks of a recording. */
  function HeardOf(energy: Energy, threshold: real, chunks: seq<seq<Sample>>): (hs: seq<Heard>)
    ensures |hs| == |chunks|
  {
    seq(|chunks|, i requires 0 <= i < |chunks| => Heard(|chunks[i]|, energy(chunks[i]) >= threshold))
  }

  /** Passes captured chunks on to recognition while it takes them (it takes
      `accepts` in all), up to and including the first one that fires. */
  method ForwardAudio(detector: AutoStopDetector, chunks: seq<seq<Sample>>, accepts: nat)
    returns (forwarded: seq<seq<Sample>>, signalled: bool)
    requires detector.Valid() && detector.heard == []
    modifies detector
    ensures var hs := HeardOf(detector.energy, detector.threshold, chunks);
            var c, timeout := detector.confirmationSamples, detector.timeoutSamples;
            && |forwarded| <= accepts && forwarded <= chunks
            && (signalled <==> |forwarded| > 0 && Fires(hs, |forwarded|, c, timeout))
            && (forall n :: 0 < n < |forwarded| ==> !Fires(hs, n, c, timeout))
            && (!signalled ==> |forwarded| == |chunks| || |forwarded| == accepts)
  {
    forwarded, signalled := [], false;
    ghost var hs := HeardOf(detector.energy, detector.threshold, chunks);
    for i := 0 to |chunks|
      invariant detector.Valid() && detector.heard == hs[..i]
      invariant forwarded == chunks[..i] && i <= accepts && !signalled
      invariant forall n :: 0 < n <= i ==> !Fires(hs, n, detector.confirmationSamples, detector.timeoutSamples)
    {
      var shouldStop := detector.Feed(chunks[i]);
      assert detector.heard == hs[..i + 1];
      FiresOnPrefix(hs, i + 1, detector.confirmationSamples, detector.timeoutSamples);
      if i == accepts { return; }
      forwarded := forwarded + [chunks[i]];
      if shouldStop { return forwarded, true; }
    }
  }

  lemma {:induction false} LastSpeechOnPrefix(hs: seq<Heard>, m: nat, n: nat, c: nat)
    requires n <= m <= |hs|
    ensures VoicedSuffix(hs[..m], n) == VoicedSuffix(hs, n)
    ensures LastSpeech(hs[..m], n, c) == LastSpeech(hs, n, c)
  {
    if n > 0 { LastSpeechOnPrefix(hs, m, n - 1, c); }
  }

  lemma {:induction false} SamplesOnPrefix(hs: seq<Heard>, m: nat, k: nat, n: nat)
    requires k <= n <= m <= |hs|
    ensures Samples(hs[..m], k, n) == Samples(hs, k, n)
  {
    if k < n { SamplesOnPrefix(hs, m, k, n - 1); }
  }

  lemma FiresOnPrefix(hs: seq<Heard>, m: nat, c: nat, timeout: nat)
    requires m <= |hs|
    ensures Fires(hs[..m], m, c, timeout) == Fires(hs, m, c, timeout)
  {
    LastSpeechOnPrefix(hs, m, m, c);
    SamplesOnPrefix(hs, m, LastSpeech(hs, m, c), m);
  }
}
