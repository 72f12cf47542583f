/** Preservation evidence: what one fleet-wide observation must show before a
  * rollout may start, go on or complete. */
module UpgradeEvidence {
  import opened UpgradeRecord
  import opened Wrappers
  import opened Text

  datatype CoreSample = CoreSample(containerId: string, startedAt: Option<int>, configSha256: string, genesis: string)

  datatype PlatformSample = PlatformSample(
    protocol: nat, validators: seq<string>, containers: map<Component, string>, restarts: map<Component, int>)

  datatype Sample = Sample(core: Option<CoreSample>, platform: Option<PlatformSample>)

  const Nothing := Sample(None, None)

  type Observation = map<string, Sample>

  /** llmq_devnet_platform has 12 members and a minimum size of 9. */
  const PLATFORM_QUORUM_MINIMUM := 9
  const PLATFORM_QUORUM_SIZE := 12

  function ComponentService(c: Component): Service {
    match c
    case Drive => DriveAbci
    case Tenderdash => DriveTenderdash
    case Dapi => RsDapi
    case _ => GatewayService
  }

  predicate PreservedCore(c: CoreSample, b: Preservation) {
    c.containerId == b.coreId && c.startedAt == b.coreStarted && c.configSha256 == b.coreConfig && c.genesis == b.coreGenesis
  }

  /** The registered identities of the deployment's validators. */
  function KnownMembers(targets: seq<Target>, d: Deployment): set<string> {
    set t | t in targets && t.role == Validator :: At(d.proTxHashes, t.name, "")
  }

  predicate KnownDistinct(members: seq<string>, known: set<string>) {
    && (forall i :: 0 <= i < |members| ==> Lower(members[i]) in known)
    && (forall i, j :: 0 <= i < j < |members| ==> Lower(members[i]) != Lower(members[j]))
  }

  method CheckMembers(members: seq<string>, known: set<string>) returns (ok: bool)
    ensures ok <==> KnownDistinct(members, known)
  {
    var seen := {};
    for i := 0 to |members|
      invariant seen == set j | 0 <= j < i :: Lower(members[j])
      invariant KnownDistinct(members[..i], known)
    {
      var id := Lower(members[i]);
      if id in seen || id !in known {
        return false;
      }
      seen := seen + {id};
    }
    assert members[..|members|] == members;
    ok := true;
  }

  predicate LiveQuorum(protocol: nat, known: set<string>, x: PlatformSample) {
    && x.protocol == protocol
    && PLATFORM_QUORUM_MINIMUM <= |x.validators| <= PLATFORM_QUORUM_SIZE
    && KnownDistinct(x.validators, known)
  }

  /** The rollout has reached a node: it is done or being replaced. */
  predicate Reached(u: Progress, name: string) {
    IsDone(u, name) || name == u.currentNode
  }

  function Value<V>(m: map<Component, V>, c: Component, zero: V): V {
    if c in m then m[c] else zero
  }

  function Pinned(images: FleetImages, name: string, c: Component): Option<Pin> {
    if name in images && c in images[name] then Some(images[name][c]) else None
  }

  /** Whether one Platform component of a validator is as it should be. */
  predicate ServicePreserved(u: Progress, images: FleetImages, name: string, x: PlatformSample, c: Component) {
    var base := At(u.baseline, name, Preservation("", None, "", "", map[], map[]));
    var changes := At(u.changes, name, []);
    var sameContainer := Value(x.containers, c, "") == Value(base.containers, c, "");
    var restarts := Value(x.restarts, c, 0);
    var before := Value(base.restarts, c, 0);
    if u.scope == CoreScope then
      sameContainer && (Reached(u, name) || restarts == before)
    else if Reached(u, name) && ComponentService(c) in changes then
      true
    else
      var expected := if c == Tenderdash && Reached(u, name) && DriveAbci in changes then 0 else before;
      Pinned(images, name, c) == Pinned(u.source, name, c) ==> sameContainer && restarts == expected
  }

  /** The Core process at one node is the one from before the rollout, or, where
    * a Core rollout has replaced it, keeps its configuration and genesis. */
  predicate CorePreserved(u: Progress, name: string, c: CoreSample) {
    var base := At(u.baseline, name, Preservation("", None, "", "", map[], map[]));
    if u.scope == CoreScope && Reached(u, name) then
      c.configSha256 == base.coreConfig && c.genesis == base.coreGenesis
    else
      PreservedCore(c, base)
  }

  function Fingerprint(c: CoreSample): Preservation {
    Preservation(c.containerId, c.startedAt, c.configSha256, c.genesis, map[], map[])
  }

  /** What one node contributes: its fingerprint, or nothing when the node
    * fails the evidence. pending names the node that may be mid-replacement. */
  function NodeEvidence(targets: seq<Target>, protocol: nat, r: Record, observed: Observation, pending: string, t: Target)
    : (b: Option<Preservation>)
    requires r.deployment.Some? && (r.upgrade.Some? ==> r.runtime.Some?)
  {
    var s := At(observed, t.name, Nothing);
    if r.upgrade.Some? && r.upgrade.value.scope == CoreScope && t.name == pending && s.core.None? then
      Some(At(r.upgrade.value.baseline, t.name, Preservation("", None, "", "", map[], map[])))
    else if s.core.None? || s.core.value.genesis != r.deployment.value.coreGenesis || s.core.value.startedAt.None? then
      None
    else if r.upgrade.Some? && !CorePreserved(r.upgrade.value, t.name, s.core.value) then
      None
    else if t.role != Validator then
      Some(Fingerprint(s.core.value))
    else if s.platform.None? then
      if t.name == pending then Some(Fingerprint(s.core.value)) else None
    else
      var x := s.platform.value;
      if LiveQuorum(protocol, KnownMembers(targets, r.deployment.value), x)
         && (r.upgrade.Some? ==> forall c :: c in PlatformComponents ==>
               ServicePreserved(r.upgrade.value, r.runtime.value.images, t.name, x, c)) then
        Some(Fingerprint(s.core.value).(containers := x.containers, restarts := x.restarts))
      else
        None
  }

  ghost predicate EvidenceHolds(targets: seq<Target>, protocol: nat, r: Record, observed: Observation, pending: string)
    requires r.deployment.Some? && (r.upgrade.Some? ==> r.runtime.Some?)
  {
    forall t :: t in targets ==> NodeEvidence(targets, protocol, r, observed, pending, t).Some?
  }

  /** Samples as the typed node protocol delivers them. */
  predicate WellFormedSample(s: Sample) {
    && (s.core.Some? ==> Hex64(s.core.value.containerId) && Hex64(s.core.value.configSha256) && Hex64(s.core.value.genesis))
    && (s.platform.Some? ==> forall c :: c in PlatformComponents ==>
          c in s.platform.value.containers && Hex64(s.platform.value.containers[c])
          && (c in s.platform.value.restarts ==> s.platform.value.restarts[c] >= 0))
  }

  predicate WellFormed(observed: Observation) {
    forall n :: n in observed ==> WellFormedSample(observed[n])
  }

  /** What evidence with no node pending says of one node: its Core keeps its
    * configuration and genesis, and is the process from before the rollout
    * unless a Core rollout has reached it; and every Platform component outside
    * the staged changes and image moves is still in its container. */
  ghost predicate LeftAlone(u: Progress, images: FleetImages, s: Sample, t: Target) {
    var base := At(u.baseline, t.name, Preservation("", None, "", "", map[], map[]));
    var changes := At(u.changes, t.name, []);
    && s.core.Some? && s.core.value.configSha256 == base.coreConfig && s.core.value.genesis == base.coreGenesis
    && (u.scope != CoreScope || !Reached(u, t.name) ==> PreservedCore(s.core.value, base))
    && (t.role == Validator ==> s.platform.Some?)
    && forall c ::
         (&& t.role == Validator && c in PlatformComponents
          && (u.scope == CoreScope ||
              (&& (!Reached(u, t.name) || ComponentService(c) !in changes)
               && Pinned(images, t.name, c) == Pinned(u.source, t.name, c)))) ==>
         Value(s.platform.value.containers, c, "") == Value(base.containers, c, "")
  }

  lemma EvidenceLeavesAlone(targets: seq<Target>, protocol: nat, r: Record, observed: Observation, t: Target)
    requires r.deployment.Some? && r.upgrade.Some? && r.runtime.Some? && t.name != ""
    requires NodeEvidence(targets, protocol, r, observed, "", t).Some?
    ensures LeftAlone(r.upgrade.value, r.runtime.value.images, At(observed, t.name, Nothing), t)
  {
  }

  lemma FreshBaselineIsValid(targets: seq<Target>, protocol: nat, r: Record, observed: Observation, t: Target)
    requires r.deployment.Some? && r.upgrade.None? && WellFormed(observed) && t.name != ""
    requires NodeEvidence(targets, protocol, r, observed, "", t).Some?
    ensures ValidBaseline(t.role, NodeEvidence(targets, protocol, r, observed, "", t).value)
  {
    assert WellFormedSample(At(observed, t.name, Nothing));
  }

  method CollectEvidence(targets: seq<Target>, protocol: nat, r: Record, observed: Observation, pending: string)
    returns (baseline: Option<map<string, Preservation>>)
    requires UniqueNames(targets) && r.deployment.Some? && (r.upgrade.Some? ==> r.runtime.Some?)
    ensures baseline.Some? <==> EvidenceHolds(targets, protocol, r, observed, pending)
    ensures baseline.Some? ==> baseline.value.Keys == Names(targets)
    ensures baseline.Some? ==> forall t :: t in targets ==>
      NodeEvidence(targets, protocol, r, observed, pending, t) == Some(baseline.value[t.name])
    ensures baseline.Some? && r.upgrade.None? && pending == "" && WellFormed(observed) ==>
      forall t :: t in targets ==> ValidBaseline(t.role, baseline.value[t.name])
    ensures baseline.Some? && r.upgrade.Some? && pending == "" ==> forall t :: t in targets ==>
      LeftAlone(r.upgrade.value, r.runtime.value.images, At(observed, t.name, Nothing), t)
  {
    hide NodeEvidence, ValidBaseline, LeftAlone, WellFormed;
    var out: map<string, Preservation> := map[];
    for i := 0 to |targets|
      invariant out.Keys == Names(targets[..i])
      invariant forall j :: 0 <= j < i ==>
        targets[j].name in out
        && NodeEvidence(targets, protocol, r, observed, pending, targets[j]) == Some(out[targets[j].name])
    {
      var t := targets[i];
      var b := NodeEvidence(targets, protocol, r, observed, pending, t);
      assert targets[..i + 1] == targets[..i] + [t];
      if b.None? {
        assert t in targets;
        return None;
      }
      assert forall j :: 0 <= j < i ==> targets[j].name != t.name;
      out := out[t.name := b.value];
    }
    assert targets[..|targets|] == targets;
    baseline := Some(out);
    if pending == "" {
      forall t | t in targets
        ensures r.upgrade.None? && WellFormed(observed) ==> ValidBaseline(t.role, out[t.name])
        ensures r.upgrade.Some? ==> LeftAlone(r.upgrade.value, r.runtime.value.images, At(observed, t.name, Nothing), t)
      {
        if r.upgrade.Some? {
          EvidenceLeavesAlone(targets, protocol, r, observed, t);
        } else if WellFormed(observed) {
          FreshBaselineIsValid(targets, protocol, r, observed, t);
        }
      }
    }
  }
}
