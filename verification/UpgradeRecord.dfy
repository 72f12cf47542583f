/** The part of the shared journal record that a rolling upgrade owns, and the
  * strict validator every save passes through. */
module UpgradeRecord {
  import opened Text
  import opened Wrappers

  datatype Role = Validator | Fullnode | Wallet | Miner | Seed

  datatype Component = Core | Drive | Tenderdash | Dapi | Gateway | Helper

  const PlatformComponents: seq<Component> := [Drive, Tenderdash, Dapi, Gateway]

  datatype Target = Target(name: string, role: Role, architecture: string)

  datatype Pin = Pin(repository: string, digest: string)

  type ImageSet = map<Component, Pin>
  type FleetImages = map<string, ImageSet>

  datatype Service = DriveAbci | DriveTenderdash | RsDapi | RateLimiterRedis | RateLimiter | GatewayService
                   | OtherService(name: string)

  datatype Sidecar = Sidecar(service: nat, requested: string, pinned: Pin)

  /** Public fingerprints of one node before the rollout. A start time that
    * does not parse is None. */
  datatype Preservation = Preservation(
    coreId: string, coreStarted: Option<int>, coreConfig: string, coreGenesis: string,
    containers: map<Component, string>, restarts: map<Component, int>)

  datatype Scope = PlatformScope | CoreScope | OtherScope(name: string)

  datatype Phase = Staging | Applying | Verifying | Interrupted | Complete | OtherPhase(name: string)

  /** currentNode is empty when no node is withdrawn; observedAt is 0 before
    * the final verification. */
  datatype Progress = Progress(
    planId: string, previousId: string, phase: Phase, currentNode: string,
    source: FleetImages, goal: FleetImages,
    baseline: map<string, Preservation>, completed: map<string, bool>,
    observedAt: nat, scope: Scope, sidecars: seq<Sidecar>, changes: map<string, seq<Service>>)

  datatype Runtime = Runtime(deploymentId: string, upgradeId: string, images: FleetImages, sidecars: seq<Sidecar>)

  /** proTxHashes holds the registered identity of each validator. */
  datatype Deployment = Deployment(planId: string, ready: bool, coreGenesis: string,
                                   proTxHashes: map<string, string>, sidecars: seq<Sidecar>)

  datatype Record = Record(deployment: Option<Deployment>, runtime: Option<Runtime>, upgrade: Option<Progress>)

  predicate UniqueNames(targets: seq<Target>) {
    && (forall i, j :: 0 <= i < j < |targets| ==> targets[i].name != targets[j].name)
    && (forall t :: t in targets ==> t.name != "")
  }

  function Names(targets: seq<Target>): set<string> {
    set t | t in targets :: t.name
  }

  function RoleComponents(role: Role): set<Component> {
    match role
    case Validator => {Core, Drive, Tenderdash, Dapi, Gateway, Helper}
    case Seed => {Core, Tenderdash}
    case _ => {Core, Helper}
  }

  /** A map read in the source's way: a missing key reads as the zero value. */
  function At<V>(m: map<string, V>, k: string, zero: V): V {
    if k in m then m[k] else zero
  }

  // ----------------------------------------------------------- image bounds

  predicate ValidSet(role: Role, v: ImageSet) {
    v.Keys == RoleComponents(role) && forall c :: c in v ==> Hex64(v[c].digest)
  }

  /** Exactly one complete set of immutable references per target. */
  ghost predicate ValidImages(targets: seq<Target>, images: FleetImages) {
    && images.Keys == Names(targets)
    && forall t :: t in targets ==> ValidSet(t.role, images[t.name])
  }

  lemma {:induction false} NamesCount(targets: seq<Target>)
    requires UniqueNames(targets)
    ensures |Names(targets)| == |targets|
  {
    if targets == [] {
      assert Names(targets) == {};
    } else {
      var rest := targets[..|targets| - 1];
      var last := targets[|targets| - 1];
      NamesCount(rest);
      assert targets == rest + [last];
      assert Names(targets) == Names(rest) + {last.name};
      assert last.name !in Names(rest);
    }
  }

  lemma SameSizeSubset<T>(a: set<T>, b: set<T>)
    requires a <= b && |a| == |b|
    ensures a == b
  {
    assert |b - a| == |b| - |a|;
  }

  method ValidateSet(role: Role, v: ImageSet) returns (ok: bool)
    ensures ok <==> ValidSet(role, v)
  {
    var components := RoleComponents(role);
    assert |v.Keys| == |v|;
    if |v| != |components| {
      return false;
    }
    var left := components;
    while left != {}
      invariant left <= components
      invariant forall c :: c in components - left ==> c in v && Hex64(v[c].digest)
      decreases left
    {
      var c :| c in left;
      if c !in v || !Hex64(v[c].digest) {
        return false;
      }
      left := left - {c};
    }
    assert components <= v.Keys by {
      assert components - left == components;
    }
    SameSizeSubset(components, v.Keys);
    ok := true;
  }

  method ValidateImages(targets: seq<Target>, images: FleetImages) returns (ok: bool)
    requires UniqueNames(targets)
    ensures ok <==> ValidImages(targets, images)
  {
    NamesCount(targets);
    assert |images.Keys| == |images|;
    if |images| != |targets| {
      return false;
    }
    for i := 0 to |targets|
      invariant forall j :: 0 <= j < i ==> targets[j].name in images && ValidSet(targets[j].role, images[targets[j].name])
    {
      var t := targets[i];
      var valid := ValidateSet(t.role, At(images, t.name, map[]));
      assert t in targets;
      if !valid {
        assert t.name in Names(targets);
        return false;
      }
      assert t.name in images by {
        assert Core in RoleComponents(t.role);
      }
    }
    assert Names(targets) <= images.Keys;
    SameSizeSubset(Names(targets), images.Keys);
    ok := true;
  }

  // ------------------------------------------------------------ the validator

  /** Sidecar pins name distinct supported services in order. */
  predicate ValidSidecars(s: seq<Sidecar>) {
    && (forall i :: 0 <= i < |s| ==> s[i].service < 3 && Hex64(s[i].pinned.digest))
    && (forall i, j :: 0 <= i < j < |s| ==> s[i].service < s[j].service)
  }

  predicate ValidChanges(services: seq<Service>) {
    && (forall i :: 0 <= i < |services| ==> !services[i].OtherService?)
    && (forall i, j :: 0 <= i < j < |services| ==> services[i] != services[j])
  }

  predicate ValidBaseline(role: Role, b: Preservation) {
    && Hex64(b.coreId) && Hex64(b.coreConfig) && Hex64(b.coreGenesis) && b.coreStarted.Some?
    && (role == Validator ==> forall c :: c in PlatformComponents ==>
          c in b.containers && Hex64(b.containers[c]) && (c in b.restarts ==> b.restarts[c] >= 0))
  }

  /** The nodes a rollout withdraws one at a time. */
  predicate Tracked(scope: Scope, t: Target) {
    scope == CoreScope || t.role == Validator
  }

  function TrackedNames(targets: seq<Target>, scope: Scope): set<string> {
    set t | t in targets && Tracked(scope, t) :: t.name
  }

  predicate IsDone(u: Progress, name: string) {
    name in u.completed && u.completed[name]
  }

  ghost predicate SameComponents(u: Progress, images: FleetImages, t: Target) {
    && t.name in images && t.name in u.source && t.name in u.goal
    && Core in images[t.name] && Core in u.source[t.name] && Core in u.goal[t.name]
    && images[t.name].Keys == u.source[t.name].Keys == u.goal[t.name].Keys
  }

  /** What the rollout may change at one node, and where its images stand. */
  ghost predicate ValidTarget(u: Progress, images: FleetImages, t: Target) {
    && SameComponents(u, images, t)
    && t.name in u.baseline && ValidBaseline(t.role, u.baseline[t.name])
    && (if u.scope == CoreScope then
          forall c :: c in u.source[t.name] && c != Core ==> u.goal[t.name][c] == u.source[t.name][c]
        else
          images[t.name][Core] == u.source[t.name][Core] == u.goal[t.name][Core])
    && (forall c :: c in images[t.name] ==>
          images[t.name][c] == u.source[t.name][c] || images[t.name][c] == u.goal[t.name][c])
    && (u.phase == Complete ==> images[t.name] == u.goal[t.name])
  }

  ghost predicate Identified(r: Record) {
    && r.deployment.Some? && r.runtime.Some? && r.upgrade.Some?
    && r.runtime.value.deploymentId == r.deployment.value.planId
    && Hex64(r.runtime.value.upgradeId) && r.runtime.value.upgradeId == r.upgrade.value.planId
    && (r.upgrade.value.previousId == "" || Hex64(r.upgrade.value.previousId))
  }

  ghost predicate ValidProgress(targets: seq<Target>, u: Progress) {
    && !u.phase.OtherPhase? && !u.scope.OtherScope?
    && u.completed.Keys == TrackedNames(targets, u.scope)
    && (u.currentNode == "" || u.currentNode in TrackedNames(targets, u.scope))
    && (forall n :: n in u.changes ==>
          u.scope != CoreScope && n in TrackedNames(targets, u.scope) && ValidChanges(u.changes[n]))
    && (u.phase == Complete ==>
          u.currentNode == "" && u.observedAt != 0 && forall n :: n in u.completed ==> u.completed[n])
  }

  /** What the validator demands of the record as a whole. */
  ghost predicate ValidFrame(targets: seq<Target>, r: Record) {
    && Identified(r)
    && ValidImages(targets, r.runtime.value.images)
    && ValidImages(targets, r.upgrade.value.source)
    && ValidImages(targets, r.upgrade.value.goal)
    && ValidSidecars(r.runtime.value.sidecars) && ValidSidecars(r.upgrade.value.sidecars)
    && r.upgrade.value.baseline.Keys == Names(targets)
    && ValidProgress(targets, r.upgrade.value)
  }

  /** The invariant validateUpgrade enforces on every stored record. */
  ghost predicate ValidUpgrade(targets: seq<Target>, r: Record) {
    (r.runtime.None? && r.upgrade.None?) ||
    (ValidFrame(targets, r)
     && forall t :: t in targets ==> ValidTarget(r.upgrade.value, r.runtime.value.images, t))
  }

  // The validator itself: one pass over the targets that counts the tracked
  // nodes and looks for the current one.

  method ValidateSidecars(s: seq<Sidecar>) returns (ok: bool)
    ensures ok <==> ValidSidecars(s)
  {
    for i := 0 to |s|
      invariant forall j :: 0 <= j < i ==> s[j].service < 3 && Hex64(s[j].pinned.digest)
      invariant forall j, k :: 0 <= j < k < i ==> s[j].service < s[k].service
    {
      if s[i].service >= 3 || (i > 0 && s[i - 1].service >= s[i].service) || !Hex64(s[i].pinned.digest) {
        return false;
      }
    }
    ok := true;
  }

  predicate ValidChangesOf(targets: seq<Target>, u: Progress, n: string)
    requires n in u.changes
  {
    u.scope != CoreScope && n in TrackedNames(targets, u.scope) && ValidChanges(u.changes[n])
  }

  method ValidateChanges(targets: seq<Target>, u: Progress) returns (ok: bool)
    ensures ok <==> forall n :: n in u.changes ==> ValidChangesOf(targets, u, n)
  {
    var left := u.changes.Keys;
    while left != {}
      invariant left <= u.changes.Keys
      invariant forall n :: n in u.changes && n !in left ==> ValidChangesOf(targets, u, n)
      decreases left
    {
      var n :| n in left;
      if !ValidChangesOf(targets, u, n) {
        return false;
      }
      left := left - {n};
    }
    ok := true;
  }

  lemma {:induction false} TrackedCount(targets: seq<Target>, scope: Scope, i: nat)
    requires UniqueNames(targets) && i < |targets|
    ensures TrackedNames(targets[..i + 1], scope)
            == TrackedNames(targets[..i], scope) + if Tracked(scope, targets[i]) then {targets[i].name} else {}
    ensures targets[i].name !in TrackedNames(targets[..i], scope)
  {
    assert targets[..i + 1] == targets[..i] + [targets[i]];
  }

  /** One target against the bounds, in the source's order of tests. */
  method ValidateTarget(u: Progress, images: FleetImages, t: Target) returns (ok: bool)
    requires SameComponents(u, images, t)
    ensures ok <==> ValidTarget(u, images, t)
  {
    if t.name !in u.baseline || !ValidBaseline(t.role, u.baseline[t.name]) {
      return false;
    }
    var from, to, now := u.source[t.name], u.goal[t.name], images[t.name];
    if u.scope == CoreScope {
      var left := from.Keys;
      while left != {}
        invariant left <= from.Keys
        invariant forall c :: c in from && c !in left && c != Core ==> to[c] == from[c]
        decreases left
      {
        var c :| c in left;
        if c != Core && to[c] != from[c] {
          return false;
        }
        left := left - {c};
      }
    } else if from[Core] != to[Core] || now[Core] != from[Core] {
      return false;
    }
    var left := now.Keys;
    while left != {}
      invariant left <= now.Keys
      invariant forall c :: c in now && c !in left ==> now[c] == from[c] || now[c] == to[c]
      invariant u.phase == Complete ==> forall c :: c in now && c !in left ==> now[c] == to[c]
      decreases left
    {
      var c :| c in left;
      if now[c] != from[c] && now[c] != to[c] {
        return false;
      }
      if u.phase == Complete && now[c] != to[c] {
        return false;
      }
      left := left - {c};
    }
    ok := true;
  }

  lemma CommonComponents(targets: seq<Target>, u: Progress, images: FleetImages, t: Target)
    requires ValidImages(targets, images) && ValidImages(targets, u.source) && ValidImages(targets, u.goal)
    requires t in targets
    ensures SameComponents(u, images, t)
  {
    assert t.name in Names(targets);
    assert Core in RoleComponents(t.role);
  }

  method ValidateUpgrade(targets: seq<Target>, r: Record) returns (ok: bool)
    requires UniqueNames(targets)
    ensures ok <==> ValidUpgrade(targets, r)
  {
    if r.runtime.None? && r.upgrade.None? {
      return true;
    }
    if r.deployment.None? || r.runtime.None? || r.upgrade.None?
       || r.runtime.value.deploymentId != r.deployment.value.planId
       || !Hex64(r.runtime.value.upgradeId) || !Hex64(r.upgrade.value.planId)
       || r.runtime.value.upgradeId != r.upgrade.value.planId
       || (r.upgrade.value.previousId != "" && !Hex64(r.upgrade.value.previousId)) {
      return false;
    }
    ok := ValidateRollout(targets, r.upgrade.value, r.runtime.value);
  }

  method ValidateRollout(targets: seq<Target>, u: Progress, runtime: Runtime) returns (ok: bool)
    requires UniqueNames(targets)
    ensures ok <==>
      && ValidImages(targets, runtime.images) && ValidImages(targets, u.source) && ValidImages(targets, u.goal)
      && ValidSidecars(runtime.sidecars) && ValidSidecars(u.sidecars)
      && u.baseline.Keys == Names(targets) && ValidProgress(targets, u)
      && forall t :: t in targets ==> ValidTarget(u, runtime.images, t)
  {
    ok := ValidateImages(targets, runtime.images);
    if !ok { return; }
    ok := ValidateImages(targets, u.source);
    if !ok { return; }
    ok := ValidateImages(targets, u.goal);
    if !ok { return; }
    if u.phase.OtherPhase? || |u.baseline| != |targets| || u.scope.OtherScope? {
      NamesCount(targets);
      assert |u.baseline.Keys| == |u.baseline|;
      return false;
    }
    ok := ValidateSidecars(runtime.sidecars);
    if !ok { return; }
    ok := ValidateSidecars(u.sidecars);
    if !ok { return; }
    ok := ValidateChanges(targets, u);
    if !ok { return; }
    forall t | t in targets ensures SameComponents(u, runtime.images, t) {
      CommonComponents(targets, u, runtime.images, t);
    }
    ok := ValidateProgress(targets, u, runtime.images);
  }

  /** Progress is recorded for a tracked target, and finished at the end. */
  predicate ProgressAt(u: Progress, t: Target) {
    Tracked(u.scope, t) ==> t.name in u.completed && (u.phase == Complete ==> u.completed[t.name])
  }

  ghost predicate TargetOk(u: Progress, images: FleetImages, t: Target) {
    ValidTarget(u, images, t) && ProgressAt(u, t)
  }

  /** The validator's loop. It never compares name sets: it counts the tracked
    * targets and remembers whether it met the current node. */
  method CheckTargets(targets: seq<Target>, u: Progress, images: FleetImages)
    returns (ok: bool, tracked: nat, currentKnown: bool)
    requires UniqueNames(targets)
    requires forall t :: t in targets ==> SameComponents(u, images, t)
    ensures ok <==> forall t :: t in targets ==> TargetOk(u, images, t)
    ensures ok ==> tracked == |TrackedNames(targets, u.scope)|
    ensures ok ==> (currentKnown <==> u.currentNode == "" || u.currentNode in TrackedNames(targets, u.scope))
  {
    tracked := 0;
    currentKnown := u.currentNode == "";
    for i := 0 to |targets|
      invariant forall j :: 0 <= j < i ==> TargetOk(u, images, targets[j])
      invariant tracked == |TrackedNames(targets[..i], u.scope)|
      invariant currentKnown <==> u.currentNode == "" || u.currentNode in TrackedNames(targets[..i], u.scope)
    {
      var t := targets[i];
      TrackedCount(targets, u.scope, i);
      ok := ValidateTarget(u, images, t);
      assert ok ==> (TargetOk(u, images, t) <==> ProgressAt(u, t));
      if !ok || !ProgressAt(u, t) {
        assert !TargetOk(u, images, targets[i]);
        return false, tracked, currentKnown;
      }
      if Tracked(u.scope, t) {
        tracked := tracked + 1;
        if t.name == u.currentNode {
          currentKnown := true;
        }
      }
    }
    assert targets[..|targets|] == targets;
    ok := true;
  }

  lemma ProgressFromTargets(targets: seq<Target>, u: Progress, images: FleetImages)
    requires UniqueNames(targets) && |u.baseline| == |targets|
    requires !u.phase.OtherPhase? && !u.scope.OtherScope?
    requires forall n :: n in u.changes ==> ValidChangesOf(targets, u, n)
    requires forall t :: t in targets ==> TargetOk(u, images, t)
    requires u.currentNode == "" || u.currentNode in TrackedNames(targets, u.scope)
    requires |u.completed| == |TrackedNames(targets, u.scope)|
    requires u.phase == Complete ==> u.currentNode == "" && u.observedAt != 0
    ensures u.baseline.Keys == Names(targets) && ValidProgress(targets, u)
  {
    assert |u.completed.Keys| == |u.completed|;
    SameSizeSubset(TrackedNames(targets, u.scope), u.completed.Keys);
    NamesCount(targets);
    assert |u.baseline.Keys| == |u.baseline|;
    assert Names(targets) <= u.baseline.Keys by {
      forall t | t in targets ensures t.name in u.baseline {
        assert TargetOk(u, images, t);
      }
    }
    SameSizeSubset(Names(targets), u.baseline.Keys);
  }

  lemma TargetsFromProgress(targets: seq<Target>, u: Progress, images: FleetImages)
    requires ValidProgress(targets, u)
    requires forall t :: t in targets ==> ValidTarget(u, images, t)
    ensures forall t :: t in targets ==> TargetOk(u, images, t)
    ensures |u.completed| == |TrackedNames(targets, u.scope)|
  {
    assert |u.completed.Keys| == |u.completed|;
    forall t | t in targets ensures TargetOk(u, images, t) {
      assert ValidTarget(u, images, t);
    }
  }

  method ValidateProgress(targets: seq<Target>, u: Progress, images: FleetImages) returns (ok: bool)
    requires UniqueNames(targets) && |u.baseline| == |targets|
    requires forall t :: t in targets ==> SameComponents(u, images, t)
    requires !u.phase.OtherPhase? && !u.scope.OtherScope?
    requires forall n :: n in u.changes ==> ValidChangesOf(targets, u, n)
    ensures ok <==>
      && u.baseline.Keys == Names(targets) && ValidProgress(targets, u)
      && forall t :: t in targets ==> ValidTarget(u, images, t)
  {
    var tracked, currentKnown;
    ok, tracked, currentKnown := CheckTargets(targets, u, images);
    ok := ok && currentKnown && |u.completed| == tracked
    && !(u.phase == Complete && (u.currentNode != "" || u.observedAt == 0));
    if ok {
      ProgressFromTargets(targets, u, images);
    } else if ValidProgress(targets, u) && forall t :: t in targets ==> ValidTarget(u, images, t) {
      TargetsFromProgress(targets, u, images);
    }
  }
}
