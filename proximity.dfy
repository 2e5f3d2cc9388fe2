/**
 * Proximity detection: each frame, the nearest uncollected artifact that lies
 * strictly closer than the threshold, or none. The scan starts its best
 * distance at the threshold and only replaces it with a strictly smaller one,
 * so on a tie the artifact earliest in the list wins.
 */
module Proximity {
  import opened Wrappers
  import opened Artifacts

  /** How close the player must be to an artifact to see it. */
  const Threshold: nat := 60

  /** Absolute distance between two world positions. */
  function Dist(px: int, x: int): (d: nat)
    ensures d == px - x || d == x - px
  {
    if px < x then x - px else px - x
  }

  /** `a` is a candidate for the active artifact when the player stands at `px`. */
  predicate InRange(a: Artifact, px: int) {
    !a.collected && Dist(px, a.x) < Threshold
  }

  /**
   * Artifact `i` is the one to activate: it is in range, no uncollected
   * artifact is strictly closer, and every uncollected artifact before it is
   * strictly farther.
   */
  ghost predicate IsNearest(s: seq<Artifact>, px: int, i: nat) {
    && i < |s|
    && InRange(s[i], px)
    && (forall j | 0 <= j < |s| && !s[j].collected :: Dist(px, s[i].x) <= Dist(px, s[j].x))
    && (forall j | 0 <= j < i && !s[j].collected :: Dist(px, s[i].x) < Dist(px, s[j].x))
  }

  /** The best candidate and best distance after scanning the first `n` artifacts. */
  function ScanPrefix(s: seq<Artifact>, px: int, n: nat): (r: (Option<nat>, nat))
    requires n <= |s|
    ensures r.1 <= Threshold
    ensures r.0.None? ==> r.1 == Threshold
    ensures r.0.Some? ==> r.0.value < n && r.1 < Threshold
  {
    if n == 0 then (None, Threshold)
    else
      var (closest, minDistance) := ScanPrefix(s, px, n - 1);
      var a := s[n - 1];
      if !a.collected && Dist(px, a.x) < minDistance then (Some(n - 1), Dist(px, a.x))
      else (closest, minDistance)
  }

  /** The artifact the detector activates, as an index into `s`. */
  function NearestInRange(s: seq<Artifact>, px: int): (r: Option<nat>)
    ensures r.Some? ==> r.value < |s| && InRange(s[r.value], px)
  {
    ScanPrefixMeaning(s, px, |s|);
    ScanPrefix(s, px, |s|).0
  }

  /** What the scan of a prefix has established about that prefix. */
  lemma {:induction false} ScanPrefixMeaning(s: seq<Artifact>, px: int, n: nat)
    requires n <= |s|
    ensures var (c, m) := ScanPrefix(s, px, n);
      && m <= Threshold
      && (c.None? ==> m == Threshold)
      && (c.Some? ==> c.value < n && InRange(s[c.value], px) && m == Dist(px, s[c.value].x))
      && (forall j | 0 <= j < n && !s[j].collected :: m <= Dist(px, s[j].x))
      && (c.Some? ==> forall j | 0 <= j < c.value && !s[j].collected :: m < Dist(px, s[j].x))
  {
    if n > 0 {
      ScanPrefixMeaning(s, px, n - 1);
    }
  }

  /**
   * The detector's answer is exactly the nearest artifact in range: when it
   * names one, that one satisfies `IsNearest`; it names none exactly when no
   * uncollected artifact is within the threshold.
   */
  lemma NearestInRangeCorrect(s: seq<Artifact>, px: int)
    ensures NearestInRange(s, px).Some? ==> IsNearest(s, px, NearestInRange(s, px).value)
    ensures NearestInRange(s, px).None? <==> forall j | 0 <= j < |s| :: !InRange(s[j], px)
  {
    ScanPrefixMeaning(s, px, |s|);
  }

  /** `IsNearest` picks at most one artifact, and the detector finds it. */
  lemma NearestInRangeUnique(s: seq<Artifact>, px: int, i: nat)
    requires IsNearest(s, px, i)
    ensures NearestInRange(s, px) == Some(i)
  {
    NearestInRangeCorrect(s, px);
    var k := NearestInRange(s, px).value;
    assert IsNearest(s, px, k);
  }

  /** Once every artifact is collected, nothing can become active again. */
  lemma NothingActiveWhenAllCollected(s: seq<Artifact>, px: int)
    requires forall j | 0 <= j < |s| :: s[j].collected
    ensures NearestInRange(s, px) == None
  {
    NearestInRangeCorrect(s, px);
  }

  /**
   * The scan the detector runs each frame over the artifact array: skip the
   * collected ones and keep the first strictly closer one within range.
   */
  method ScanNearest(artifacts: array<Artifact>, px: int) returns (closest: Option<nat>)
    ensures closest == NearestInRange(artifacts[..], px)
  {
    closest := None;
    var minDistance := Threshold;
    for i := 0 to artifacts.Length
      invariant (closest, minDistance) == ScanPrefix(artifacts[..], px, i)
    {
      var a := artifacts[i];
      if a.collected {
        continue;
      }
      var dx := Dist(px, a.x);
      if dx < minDistance {
        minDistance := dx;
        closest := Some(i);
      }
    }
  }

  /**
   * Artifacts at 100, 500 and 900: from 150 the first one is 50 away and
   * active; from 170 every artifact is at least 70 away and none is.
   */
  lemma ThreeArtifactsExample(a: Artifact, b: Artifact, c: Artifact)
    requires a.x == 100 && b.x == 500 && c.x == 900
    requires !a.collected && !b.collected && !c.collected
    ensures NearestInRange([a, b, c], 150) == Some(0)
    ensures NearestInRange([a, b, c], 170) == None
  {
    NearestInRangeUnique([a, b, c], 150, 0);
    NearestInRangeCorrect([a, b, c], 170);
  }
}
