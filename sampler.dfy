/**
 * The capture sampler: an admission rule for one candidate event and a
 * three-tier adaptive rate. The two uniform draws that the source takes from
 * the platform's random source are parameters `r1` (the base-rate gate) and
 * `r2` (the burst-damping draw); both lie in [0, 1).
 */
module Sampler {

  /** A value the platform's uniform random source can return. */
  predicate IsDraw(r: real) {
    0.0 <= r < 1.0
  }

  /** Admission probability of the burst-damping step for a given gap since the last capture. */
  function BurstFactor(timeSinceLastCapture: real): (p: real)
    ensures p == 0.2 || p == 0.6 || p == 1.0
  {
    if timeSinceLastCapture < 100.0 then 0.2
    else if timeSinceLastCapture < 500.0 then 0.6
    else 1.0
  }

  /**
   * shouldCapture: reject when the first draw exceeds the rate; otherwise a
   * very recent capture (< 100 ms) admits on a second draw below 0.2, a recent
   * one (< 500 ms) on a second draw below 0.6, and an older one always.
   */
  function ShouldCapture(sampleRate: real, timeSinceLastCapture: real, r1: real, r2: real): (admit: bool)
    ensures admit ==> r1 <= sampleRate
    ensures r1 <= sampleRate && timeSinceLastCapture >= 500.0 ==> admit
    ensures admit && timeSinceLastCapture < 100.0 ==> r2 < 0.2
    ensures admit && timeSinceLastCapture < 500.0 ==> r2 < 0.6
  {
    if r1 > sampleRate then false
    else if timeSinceLastCapture < 100.0 then r2 < 0.2
    else if timeSinceLastCapture < 500.0 then r2 < 0.6
    else true
  }

  /** The base-rate gate rejects whatever the recency. */
  lemma RejectAboveRate(sampleRate: real, t: real, r1: real, r2: real)
    requires r1 > sampleRate
    ensures !ShouldCapture(sampleRate, t, r1, r2)
  {
  }

  /** An infrequent mutation passing the gate is always admitted, whatever the second draw. */
  lemma AdmitWhenIdle(sampleRate: real, t: real, r1: real, r2: real, r2': real)
    requires r1 <= sampleRate && t >= 500.0
    ensures ShouldCapture(sampleRate, t, r1, r2)
    ensures ShouldCapture(sampleRate, t, r1, r2) == ShouldCapture(sampleRate, t, r1, r2')
  {
  }

  lemma BurstDamping(sampleRate: real, t: real, r1: real, r2: real)
    requires r1 <= sampleRate
    ensures t < 100.0 ==> (ShouldCapture(sampleRate, t, r1, r2) <==> r2 < 0.2)
    ensures 100.0 <= t < 500.0 ==> (ShouldCapture(sampleRate, t, r1, r2) <==> r2 < 0.6)
  {
  }

  /** With a rate of at least 1, an idle gap is admitted on every draw. */
  lemma FullRateIdleAlwaysAdmits(sampleRate: real, t: real, r1: real, r2: real)
    requires sampleRate >= 1.0 && IsDraw(r1) && t >= 500.0
    ensures ShouldCapture(sampleRate, t, r1, r2)
  {
  }

  /**
   * The admitted draws form the rectangle [0, sampleRate] x [0, BurstFactor(t)):
   * the verdict is the conjunction of the two independent draws' tests, which is
   * what makes the admission probability min(max(sampleRate, 0), 1) * BurstFactor(t).
   */
  lemma AdmissionRegion(sampleRate: real, t: real, r1: real, r2: real)
    requires IsDraw(r2)
    ensures ShouldCapture(sampleRate, t, r1, r2) <==> r1 <= sampleRate && r2 < BurstFactor(t)
  {
  }

  /** A zero rate admits nothing but a draw of exactly 0. */
  lemma ZeroRateAdmitsOnlyZeroDraw(t: real, r1: real, r2: real)
    requires IsDraw(r1) && ShouldCapture(0.0, t, r1, r2)
    ensures r1 == 0.0
  {
  }

  /** A greater gap since the last capture never turns an admission into a rejection. */
  lemma AdmissionMonotoneInGap(sampleRate: real, t: real, t': real, r1: real, r2: real)
    requires t <= t' && ShouldCapture(sampleRate, t, r1, r2)
    ensures ShouldCapture(sampleRate, t', r1, r2)
  {
  }

  const LowRate: real := 0.1
  const MediumRate: real := 0.3
  const HighRate: real := 0.8

  /** getAdaptiveSampleRate: the most restrictive tier that either input triggers. */
  function AdaptiveSampleRate(stateSize: real, systemLoad: real): (rate: real)
    ensures rate in {LowRate, MediumRate, HighRate}
    ensures 0.0 < rate <= 1.0
    ensures rate == LowRate <==> stateSize > 1000000.0 || systemLoad > 0.8
    ensures rate == MediumRate <==> !(stateSize > 1000000.0 || systemLoad > 0.8) && (stateSize > 100000.0 || systemLoad > 0.5)
    ensures rate == HighRate <==> stateSize <= 100000.0 && systemLoad <= 0.5
  {
    if stateSize > 1000000.0 || systemLoad > 0.8 then LowRate
    else if stateSize > 100000.0 || systemLoad > 0.5 then MediumRate
    else HighRate
  }

  /** A larger state or a heavier load never raises the rate. */
  lemma AdaptiveRateAntitone(size: real, load: real, size': real, load': real)
    requires size <= size' && load <= load'
    ensures AdaptiveSampleRate(size', load') <= AdaptiveSampleRate(size, load)
  {
  }
}
