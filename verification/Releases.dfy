/**
The release verifier: what it demands of a signed manifest, and the watermark it leaves behind.

Verification and the replacement of the watermark run under an exclusive lock; the process may
die before the replacement, which is then not made, or after it, which is then made for good.
*/
module Releases {
  import opened Options

  datatype Artifact = Artifact(architecture: string, size: int, digestWellFormed: bool, trusted: bool)

  /** `digest` is the digest of the signed bytes themselves. */
  datatype Manifest = Manifest(
    digest: string, versionWellFormed: bool, channel: string, protocol: int, notes: nat,
    sequence: nat, minimumSequence: nat, targetSchema: int, minimumSchema: int, maximumSchema: int,
    created: int, expires: int, artifacts: seq<Artifact>)

  datatype Policy = Policy(channel: string, architecture: string, initial: bool, installedSequence: nat,
      installedSchema: int)

  datatype Stamp = Stamp(sequence: nat, digest: string)

  const PROTOCOL := 1
  const MAX_NOTES := 8192
  const MAX_ARCHIVE := 8 * 0x4000_0000
  const SKEW := 5 * 60
  const LIFETIME := 31 * 24 * 3600

  predicate Compatible(m: Manifest, p: Policy) {
    && m.targetSchema >= 1 && m.sequence > 0 && m.versionWellFormed
    && m.channel == p.channel && m.channel != "" && m.protocol == 1 && m.notes <= 8192
  }

  predicate Current(m: Manifest, now: int) {
    m.created <= now + 300 && now < m.expires && m.created < m.expires <= m.created + 2_678_400
  }

  predicate Upgrades(m: Manifest, p: Policy) {
    && 0 <= m.minimumSchema <= m.maximumSchema && m.minimumSequence < m.sequence
    && (p.initial || (p.installedSchema <= m.targetSchema && m.minimumSequence <= p.installedSequence
                      && m.minimumSchema <= p.installedSchema <= m.maximumSchema))
  }

  /** Never below the watermark, never another manifest at it, and never the installed release again. */
  predicate Advances(m: Manifest, p: Policy, previous: Option<Stamp>) {
    && (previous.Some? ==> previous.value.sequence < m.sequence || previous.value == Stamp(m.sequence, m.digest))
    && (p.initial || p.installedSequence < m.sequence)
  }

  predicate GoodArtifact(a: Artifact) {
    (a.architecture == "amd64" || a.architecture == "arm64") && 0 < a.size <= 8_589_934_592 && a.digestWellFormed
        && a.trusted
  }

  /** One or two artifacts, all of them good, each for its own architecture. */
  predicate GoodArtifacts(artifacts: seq<Artifact>) {
    && 1 <= |artifacts| <= 2
    && (forall i | 0 <= i < |artifacts| :: GoodArtifact(artifacts[i]))
    && forall i, j | 0 <= i < j < |artifacts| :: artifacts[i].architecture != artifacts[j].architecture
  }

  predicate Acceptable(m: Manifest, signed: bool, p: Policy, previous: Option<Stamp>, now: int) {
    && signed && Compatible(m, p) && Current(m, now) && Upgrades(m, p) && Advances(m, p, previous)
        && GoodArtifacts(m.artifacts)
    && exists i :: 0 <= i < |m.artifacts| && m.artifacts[i].architecture == p.architecture
  }

  /** Everything about the manifest but its artifacts. */
  method CheckDescription(m: Manifest, signed: bool, p: Policy, previous: Option<Stamp>, now: int) returns (fine: bool)
    ensures fine <==> signed && Compatible(m, p) && Current(m, now) && Upgrades(m, p) && Advances(m, p, previous)
  {
    if !signed { return false; }
    if m.targetSchema < 1 || m.sequence == 0 || !m.versionWellFormed || m.channel != p.channel || m.channel == ""
        || m.protocol != PROTOCOL || m.notes > MAX_NOTES { return false; }
    if m.created > now + SKEW || m.expires <= now || m.expires <= m.created
        || m.expires - m.created > LIFETIME { return false; }
    if m.minimumSchema < 0 || m.maximumSchema < m.minimumSchema || m.minimumSequence >= m.sequence { return false; }
    if !p.initial && (m.targetSchema < p.installedSchema || p.installedSequence < m.minimumSequence
                      || p.installedSchema < m.minimumSchema || p.installedSchema > m.maximumSchema) { return false; }
    if previous.Some? && (previous.value.sequence > m.sequence
                          || (previous.value.sequence == m.sequence
                              && previous.value.digest != m.digest)) { return false; }
    if !p.initial && m.sequence <= p.installedSequence { return false; }
    fine := true;
  }

  /** The selected artifact is the one and only one of the architecture. */
  method Verify(m: Manifest, signed: bool, p: Policy, previous: Option<Stamp>, now: int)
      returns (result: Option<(Artifact, Stamp)>)
    ensures result.Some? <==> Acceptable(m, signed, p, previous, now)
    ensures result.Some? ==>
              && result.value.1 == Stamp(m.sequence, m.digest) && result.value.0 in m.artifacts
              && forall a | a in m.artifacts && a.architecture == p.architecture :: a == result.value.0
  {
    hide Compatible, Current, Upgrades, Advances;
    var fine := CheckDescription(m, signed, p, previous, now);
    if !fine { return None; }
    if |m.artifacts| < 1 || |m.artifacts| > 2 { return None; }
    var seen: set<string> := {};
    var selected: Option<Artifact> := None;
    for i := 0 to |m.artifacts|
      invariant seen == set j | 0 <= j < i :: m.artifacts[j].architecture
      invariant forall j | 0 <= j < i :: GoodArtifact(m.artifacts[j])
      invariant forall j, k | 0 <= j < k < i :: m.artifacts[j].architecture != m.artifacts[k].architecture
      invariant selected.Some? ==> selected.value in m.artifacts[..i] && selected.value.architecture == p.architecture
      invariant forall j | 0 <= j < i && m.artifacts[j].architecture == p.architecture ::
                selected == Some(m.artifacts[j])
    {
      var a := m.artifacts[i];
      if (a.architecture != "amd64" && a.architecture != "arm64") || a.architecture in seen || a.size <= 0
          || a.size > MAX_ARCHIVE || !a.digestWellFormed || !a.trusted { return None; }
      seen := seen + {a.architecture};
      if a.architecture == p.architecture { selected := Some(a); }
    }
    if selected.None? { return None; }
    result := Some((selected.value, Stamp(m.sequence, m.digest)));
  }

  // ---------------------------------------------------------------- the watermark

  datatype Acceptance = Acceptance(stamp: Stamp, policy: Policy)

  class Verifier {
    var watermark: Option<Stamp>
    ghost var accepted: seq<Acceptance>

    /** Over everything accepted so far: sequences never decrease, none has two digests, and all but initial ones were upgrades. */
    ghost predicate Valid()
      reads this
    {
      && (watermark.None? <==> accepted == [])
      && (watermark.Some? ==> watermark.value == accepted[|accepted| - 1].stamp)
      && (forall i, j | 0 <= i < j < |accepted| :: accepted[i].stamp.sequence <= accepted[j].stamp.sequence)
      && (forall i, j | 0 <= i < j < |accepted| && accepted[i].stamp.sequence == accepted[j].stamp.sequence ::
          accepted[i].stamp == accepted[j].stamp)
      && (forall i | 0 <= i < |accepted| && !accepted[i].policy.initial ::
          accepted[i].policy.installedSequence < accepted[i].stamp.sequence)
    }

    constructor ()
      ensures Valid() && watermark.None? && accepted == []
    {
      watermark, accepted := None, [];
    }

    /** One run of the tool. A manifest that was accepted before is accepted again as long as nothing newer was. */
    method Run(m: Manifest, signed: bool, p: Policy, now: int, dies: bool) returns (artifact: Option<Artifact>)
      requires Valid()
      modifies this
      ensures Valid() && old(accepted) <= accepted
      ensures var fine := Acceptable(m, signed, p, old(watermark), now);
              && accepted == (if fine && !dies then old(accepted) + [Acceptance(Stamp(m.sequence, m.digest), p)]
                  else old(accepted))
              && watermark == (if fine && !dies then Some(Stamp(m.sequence, m.digest)) else old(watermark))
              && artifact.Some? == (fine && !dies)
    {
      hide Compatible, Current, Upgrades, GoodArtifacts;
      var result := Verify(m, signed, p, watermark, now);
      if result.None? || dies { return None; }
      watermark := Some(result.value.1);
      accepted := accepted + [Acceptance(result.value.1, p)];
      artifact := Some(result.value.0);
    }
  }
}
