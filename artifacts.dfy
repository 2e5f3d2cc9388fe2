/**
 * The artifact records built once at startup from the placed markers and the
 * registry of descriptions, and the count of those already collected.
 */
module Artifacts {
  import opened Wrappers

  /** Name and description of one kind of artifact; their text is opaque here. */
  datatype Info = Info(name: string, description: string)

  /**
   * A placed artifact marker: its kind and its world position as already
   * parsed, `None` when the position text is not a number.
   */
  datatype Marker = Marker(kind: string, x: Option<int>)

  /** One artifact of the world; only `collected` ever changes. */
  datatype Artifact = Artifact(x: int, kind: string, name: string, description: string, collected: bool)

  /** The record for one marker: an unparsable position becomes 0, and it starts uncollected. */
  function MakeArtifact(m: Marker, registry: map<string, Info>): (a: Artifact)
    requires m.kind in registry
    ensures !a.collected && a.kind == m.kind
    ensures a.x == (if m.x.Some? then m.x.value else 0)
    ensures a.name == registry[m.kind].name && a.description == registry[m.kind].description
  {
    var info := registry[m.kind];
    Artifact(m.x.GetOr(0), m.kind, info.name, info.description, false)
  }

  /** The artifact list, one record per marker in marker order, none collected. */
  function BuildArtifacts(markers: seq<Marker>, registry: map<string, Info>): (r: seq<Artifact>)
    requires forall m | m in markers :: m.kind in registry
    ensures |r| == |markers|
    ensures forall i | 0 <= i < |r| :: r[i] == MakeArtifact(markers[i], registry)
    ensures CollectedCount(r) == 0
  {
    seq(|markers|, i requires 0 <= i < |markers| => MakeArtifact(markers[i], registry))
  }

  /** How many artifacts of `s` are collected. */
  function CollectedCount(s: seq<Artifact>): (n: nat)
    ensures n <= |s|
    ensures n == 0 <==> forall j | 0 <= j < |s| :: !s[j].collected
    ensures n == |s| <==> forall j | 0 <= j < |s| :: s[j].collected
  {
    if s == [] then 0
    else (if s[0].collected then 1 else 0) + CollectedCount(s[1..])
  }

  /** Marking one uncollected artifact collected raises the count by exactly one. */
  lemma {:induction false} CollectOne(s: seq<Artifact>, i: nat)
    requires i < |s| && !s[i].collected
    ensures CollectedCount(s[i := s[i].(collected := true)]) == CollectedCount(s) + 1
  {
    var t := s[i := s[i].(collected := true)];
    if i > 0 {
      assert t[1..] == s[1..][i - 1 := s[i].(collected := true)];
      CollectOne(s[1..], i - 1);
    } else {
      assert t[1..] == s[1..];
    }
  }
}
