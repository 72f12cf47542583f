/** Which nodes a rollout withdraws, in which order, and to which images. */
module UpgradePlan {
  import opened Text
  import opened UpgradeRecord
  import opened Wrappers

  // ------------------------------------------------------- withdrawal order

  /** The full devnet profile: exactly one wallet, at most one separate miner,
    * and no role that a rollout would silently omit. */
  ghost predicate DevnetProfile(targets: seq<Target>) {
    && UniqueNames(targets)
    && (forall t :: t in targets ==> t.role != Seed)
    && (exists t :: t in targets && t.role == Wallet)
    && (forall a, b :: a in targets && b in targets && a.role == b.role == Wallet ==> a == b)
    && (forall a, b :: a in targets && b in targets && a.role == b.role == Miner ==> a == b)
  }

  function OfRole(targets: seq<Target>, role: Role): (r: seq<Target>)
    ensures forall t :: t in r <==> t in targets && t.role == role
    ensures UniqueNames(targets) ==> UniqueNames(r)
  {
    if targets == [] then []
    else
      var rest := OfRole(targets[..|targets| - 1], role);
      var last := targets[|targets| - 1];
      assert targets == targets[..|targets| - 1] + [last];
      if last.role == role then rest + [last] else rest
  }

  function Without(targets: seq<Target>, name: string): (r: seq<Target>)
    ensures forall t :: t in r <==> t in targets && t.name != name
    ensures UniqueNames(targets) ==> UniqueNames(r)
  {
    if targets == [] then []
    else
      var rest := Without(targets[..|targets| - 1], name);
      var last := targets[|targets| - 1];
      assert targets == targets[..|targets| - 1] + [last];
      if last.name != name then rest + [last] else rest
  }

  /** The node that mines: the separate miner, else the wallet. */
  function MinerOf(targets: seq<Target>): (t: Target)
    requires exists t :: t in targets && t.role == Wallet
    ensures t in targets && (t.role == Miner || t.role == Wallet)
    ensures (exists m :: m in targets && m.role == Miner) ==> t.role == Miner
  {
    var miners := OfRole(targets, Miner);
    if miners != [] then miners[0] else OfRole(targets, Wallet)[0]
  }

  function Order(targets: seq<Target>, scope: Scope): seq<Target>
    requires exists t :: t in targets && t.role == Wallet
  {
    if scope != CoreScope then OfRole(targets, Validator)
    else
      var miner := MinerOf(targets);
      OfRole(targets, Validator)
      + Without(OfRole(targets, Fullnode), miner.name)
      + Without(OfRole(targets, Wallet), miner.name)
      + Without(OfRole(targets, Miner), miner.name)
      + [miner]
  }

  /** The nodes of one role in plan order, leaving one name out. */
  function RoleExcept(targets: seq<Target>, role: Role, except: string): seq<Target> {
    if targets == [] then []
    else
      var last := targets[|targets| - 1];
      RoleExcept(targets[..|targets| - 1], role, except)
      + if last.role == role && last.name != except then [last] else []
  }

  lemma {:induction false} RoleExceptIsFilter(targets: seq<Target>, role: Role, except: string)
    ensures RoleExcept(targets, role, except) == Without(OfRole(targets, role), except)
  {
    if targets != [] {
      var rest, last := targets[..|targets| - 1], targets[|targets| - 1];
      RoleExceptIsFilter(rest, role, except);
      if last.role == role {
        var ofRole := OfRole(rest, role);
        assert (ofRole + [last])[..|ofRole + [last]| - 1] == ofRole;
      }
    }
  }

  method NodesOfRole(targets: seq<Target>, role: Role, except: string) returns (out: seq<Target>)
    ensures out == RoleExcept(targets, role, except)
  {
    out := [];
    for j := 0 to |targets|
      invariant out == RoleExcept(targets[..j], role, except)
    {
      assert targets[..j + 1][..j] == targets[..j];
      if targets[j].role == role && targets[j].name != except {
        out := out + [targets[j]];
      }
    }
    assert targets[..|targets|] == targets;
  }

  method UpgradeOrder(targets: seq<Target>, scope: Scope) returns (out: seq<Target>)
    requires exists t :: t in targets && t.role == Wallet
    ensures out == Order(targets, scope)
  {
    out := OfRole(targets, Validator);
    if scope != CoreScope {
      return;
    }
    var miner := MinerOf(targets);
    var roles := [Fullnode, Wallet, Miner];
    ghost var parts := [Without(OfRole(targets, Fullnode), miner.name),
                        Without(OfRole(targets, Wallet), miner.name),
                        Without(OfRole(targets, Miner), miner.name)];
    for i := 0 to |roles|
      invariant i == 0 ==> out == OfRole(targets, Validator)
      invariant i == 1 ==> out == OfRole(targets, Validator) + parts[0]
      invariant i == 2 ==> out == OfRole(targets, Validator) + parts[0] + parts[1]
      invariant i == 3 ==> out == OfRole(targets, Validator) + parts[0] + parts[1] + parts[2]
    {
      var more := NodesOfRole(targets, roles[i], miner.name);
      RoleExceptIsFilter(targets, roles[i], miner.name);
      out := out + more;
    }
    out := out + [miner];
  }

  lemma DisjointRoles(a: seq<Target>, b: seq<Target>, targets: seq<Target>)
    requires UniqueNames(targets) && UniqueNames(a) && UniqueNames(b)
    requires forall t :: t in a ==> t in targets && t !in b
    requires forall t :: t in b ==> t in targets
    ensures UniqueNames(a + b)
  {
    forall i, j | 0 <= i < j < |a + b| ensures (a + b)[i].name != (a + b)[j].name {
      if i < |a| && j >= |a| {
        assert a[i] in a && b[j - |a|] in b;
        assert a[i] != b[j - |a|];
      }
    }
  }

  /** The order visits every tracked node exactly once, validators before all
    * others, and in a Core rollout the mining node last. */
  lemma OrderVisitsTracked(targets: seq<Target>, scope: Scope)
    requires DevnetProfile(targets)
    ensures UniqueNames(Order(targets, scope))
    ensures forall t :: t in Order(targets, scope) <==> t in targets && Tracked(scope, t)
    ensures OfRole(targets, Validator) <= Order(targets, scope)
    ensures scope == CoreScope ==> Order(targets, scope)[|Order(targets, scope)| - 1] == MinerOf(targets)
  {
    if scope == CoreScope {
      var miner := MinerOf(targets);
      var v, f := OfRole(targets, Validator), Without(OfRole(targets, Fullnode), miner.name);
      var w, m := Without(OfRole(targets, Wallet), miner.name), Without(OfRole(targets, Miner), miner.name);
      FivePartsUnique(targets, v, f, w, m, miner);
      FivePartsCover(targets, v, f, w, m, miner);
      assert Order(targets, scope) == v + f + w + m + [miner];
    } else {
      assert Order(targets, scope) == OfRole(targets, Validator);
    }
  }

  lemma FivePartsUnique(targets: seq<Target>, v: seq<Target>, f: seq<Target>, w: seq<Target>, m: seq<Target>, miner: Target)
    requires UniqueNames(targets) && UniqueNames(v) && UniqueNames(f) && UniqueNames(w) && UniqueNames(m)
    requires miner in targets && miner.role != Validator
    requires forall t :: t in v ==> t in targets && t.role == Validator
    requires forall t :: t in f ==> t in targets && t.role == Fullnode && t.name != miner.name
    requires forall t :: t in w ==> t in targets && t.role == Wallet && t.name != miner.name
    requires forall t :: t in m ==> t in targets && t.role == Miner && t.name != miner.name
    ensures UniqueNames(v + f + w + m + [miner])
  {
    DisjointRoles(v, f, targets);
    DisjointRoles(v + f, w, targets);
    DisjointRoles(v + f + w, m, targets);
    DisjointRoles(v + f + w + m, [miner], targets);
  }

  lemma SameName(targets: seq<Target>, a: Target, b: Target)
    requires UniqueNames(targets) && a in targets && b in targets && a.name == b.name
    ensures a == b
  {
  }

  lemma FivePartsCover(targets: seq<Target>, v: seq<Target>, f: seq<Target>, w: seq<Target>, m: seq<Target>, miner: Target)
    requires UniqueNames(targets) && miner in targets
    requires forall t :: t in targets ==> t.role != Seed
    requires forall t :: t in v <==> t in targets && t.role == Validator
    requires forall t :: t in f <==> t in targets && t.role == Fullnode && t.name != miner.name
    requires forall t :: t in w <==> t in targets && t.role == Wallet && t.name != miner.name
    requires forall t :: t in m <==> t in targets && t.role == Miner && t.name != miner.name
    ensures forall t :: t in v + f + w + m + [miner] <==> t in targets
  {
    forall t | t in targets ensures t in v + f + w + m + [miner] {
      if t.name == miner.name {
        SameName(targets, t, miner);
      }
    }
  }

  /** A stable sort that moves the pending node to the front. */
  function ResumeOrder(order: seq<Target>, current: string): seq<Target> {
    Only(order, current) + Without(order, current)
  }

  function Only(order: seq<Target>, name: string): (r: seq<Target>)
    ensures forall t :: t in r <==> t in order && t.name == name
  {
    if order == [] then []
    else
      var rest := Only(order[..|order| - 1], name);
      var last := order[|order| - 1];
      assert order == order[..|order| - 1] + [last];
      if last.name == name then rest + [last] else rest
  }

  lemma {:induction false} SplitPermutes(order: seq<Target>, name: string)
    ensures multiset(Only(order, name)) + multiset(Without(order, name)) == multiset(order)
  {
    if order != [] {
      var rest, last := order[..|order| - 1], order[|order| - 1];
      SplitPermutes(rest, name);
      assert order == rest + [last];
      assert multiset(order) == multiset(rest) + multiset{last};
      if last.name == name {
        assert multiset(Only(rest, name) + [last]) == multiset(Only(rest, name)) + multiset{last};
      } else {
        assert multiset(Without(rest, name) + [last]) == multiset(Without(rest, name)) + multiset{last};
      }
    }
  }

  lemma {:induction false} OnlyOne(order: seq<Target>, name: string)
    requires UniqueNames(order) && exists t :: t in order && t.name == name
    ensures |Only(order, name)| == 1
  {
    var last := order[|order| - 1];
    var rest := order[..|order| - 1];
    assert order == rest + [last];
    if last.name == name {
      assert forall t :: t in rest ==> t.name != name;
      WithoutAbsent(rest, name);
    } else {
      OnlyOne(rest, name);
    }
  }

  /** Resuming permutes the order: the pending node comes first and all other
    * nodes keep their relative order. */
  lemma ResumeVisitsPendingFirst(order: seq<Target>, current: string)
    requires UniqueNames(order)
    ensures multiset(ResumeOrder(order, current)) == multiset(order)
    ensures (exists t :: t in order && t.name == current) ==>
      ResumeOrder(order, current)[0].name == current
      && ResumeOrder(order, current)[1..] == Without(order, current)
    ensures (forall t :: t in order ==> t.name != current) ==> ResumeOrder(order, current) == order
    ensures UniqueNames(ResumeOrder(order, current))
  {
    SplitPermutes(order, current);
    if exists t :: t in order && t.name == current {
      OnlyOne(order, current);
      DisjointRoles(Only(order, current), Without(order, current), order);
      assert Only(order, current)[0] in Only(order, current);
    } else {
      WithoutAbsent(order, current);
    }
  }

  lemma {:induction false} WithoutAbsent(order: seq<Target>, name: string)
    requires forall t :: t in order ==> t.name != name
    ensures Without(order, name) == order && Only(order, name) == []
  {
    if order != [] {
      assert order == order[..|order| - 1] + [order[|order| - 1]];
      WithoutAbsent(order[..|order| - 1], name);
    }
  }

  // ------------------------------------------------------------ target images

  datatype RolloutScope = Platform | TenderdashOnly | CoreImage | Unsupported

  /** One locked image: its component (None for an optional one, which no
    * upgrade replaces), its reference and the digest of each architecture. */
  datatype LockImage = LockImage(component: Option<Component>, pinned: Pin, platforms: map<string, string>)

  function ProgressScope(scope: RolloutScope): Scope {
    if scope == CoreImage then CoreScope else PlatformScope
  }

  /** Whether a rollout of this scope moves a component on a node of a role. */
  predicate Moves(scope: RolloutScope, role: Role, c: Component) {
    if scope == CoreImage then c == Core
    else
      && c != Core
      && (scope == TenderdashOnly ==> c == Tenderdash)
      && (role != Validator ==> c == Helper)
      && c in RoleComponents(role)
  }

  predicate IsLocked(lock: seq<LockImage>, c: Component, architecture: string, pin: Pin) {
    exists i :: 0 <= i < |lock| && lock[i].component == Some(c) && architecture in lock[i].platforms
                && pin == Pin(lock[i].pinned.repository, lock[i].platforms[architecture])
  }

  /** Each component is locked once, at digests that are written as such. */
  predicate ValidLock(lock: seq<LockImage>) {
    && (forall i, j :: 0 <= i < j < |lock| && lock[i].component.Some? ==> lock[i].component != lock[j].component)
    && (forall i :: 0 <= i < |lock| ==> HexLock(lock[i]))
  }

  predicate HexLock(image: LockImage) {
    forall a :: a in image.platforms ==> Hex64(image.platforms[a])
  }

  /** A node's target images: only components the scope moves differ from the
    * source, each of them now at its locked digest. */
  predicate MovedSet(lock: seq<LockImage>, scope: RolloutScope, t: Target, from: ImageSet, to: ImageSet) {
    && to.Keys == from.Keys
    && (forall c :: c in from ==>
          to[c] == from[c] || (Moves(scope, t.role, c) && IsLocked(lock, c, t.architecture, to[c])))
    && (scope == CoreImage && Core in from ==> to[Core].repository == from[Core].repository)
  }

  /** A locked image the scope moves is the node's image. */
  predicate FollowsLock(image: LockImage, scope: RolloutScope, t: Target, to: ImageSet) {
    image.component.Some? && image.component.value in to && t.architecture in image.platforms
    && Moves(scope, t.role, image.component.value)
    ==> to[image.component.value] == Pin(image.pinned.repository, image.platforms[t.architecture])
  }

  /** The lock has something new for a node. */
  predicate Outdated(lock: seq<LockImage>, scope: RolloutScope, t: Target, from: ImageSet) {
    exists i :: 0 <= i < |lock| && !FollowsLock(lock[i], scope, t, from)
  }

  /** A Core rollout keeps Core's repository. */
  predicate KeepsRepository(lock: seq<LockImage>, scope: RolloutScope, from: ImageSet) {
    scope == CoreImage && Core in from ==> forall i :: 0 <= i < |lock| && lock[i].component == Some(Core) ==>
      from[Core].repository == lock[i].pinned.repository
  }

  ghost predicate MovedImages(targets: seq<Target>, lock: seq<LockImage>, scope: RolloutScope, from: FleetImages, to: FleetImages) {
    && to.Keys == from.Keys
    && forall t :: t in targets ==> t.name in from && MovedSet(lock, scope, t, from[t.name], to[t.name])
  }

  /** What TargetSet makes of one node's images. */
  ghost predicate Built(lock: seq<LockImage>, scope: RolloutScope, t: Target, from: ImageSet, to: ImageSet) {
    && MovedSet(lock, scope, t, from, to)
    && (forall i :: 0 <= i < |lock| ==> FollowsLock(lock[i], scope, t, to))
  }

  lemma BuiltIsValid(lock: seq<LockImage>, scope: RolloutScope, t: Target, from: ImageSet, to: ImageSet)
    requires ValidLock(lock) && ValidSet(t.role, from) && Built(lock, scope, t, from, to)
    ensures ValidSet(t.role, to)
  {
    hide Hex64;
    forall c | c in to ensures Hex64(to[c].digest) {
      if to[c] != from[c] {
        var i :| 0 <= i < |lock| && lock[i].component == Some(c) && t.architecture in lock[i].platforms
          && to[c] == Pin(lock[i].pinned.repository, lock[i].platforms[t.architecture]);
        assert HexLock(lock[i]);
      }
    }
  }

  /** One node's images after the first i locked ones. */
  ghost predicate BuiltBelow(lock: seq<LockImage>, scope: RolloutScope, t: Target, from: ImageSet, to: ImageSet, i: nat)
    requires i <= |lock|
  {
    && MovedSet(lock, scope, t, from, to)
    && (forall c :: c in from && (forall j :: 0 <= j < i ==> lock[j].component != Some(c)) ==> to[c] == from[c])
    && (forall j :: 0 <= j < i ==> FollowsLock(lock[j], scope, t, to))
  }

  lemma NothingBuilt(lock: seq<LockImage>, scope: RolloutScope, t: Target, from: ImageSet)
    ensures BuiltBelow(lock, scope, t, from, from, 0)
  {
  }

  lemma LockSkipped(lock: seq<LockImage>, scope: RolloutScope, t: Target, from: ImageSet, to: ImageSet, i: nat)
    requires i < |lock| && BuiltBelow(lock, scope, t, from, to, i)
    requires lock[i].component.None? || !Moves(scope, t.role, lock[i].component.value) || t.architecture !in lock[i].platforms
    ensures BuiltBelow(lock, scope, t, from, to, i + 1) && FollowsLock(lock[i], scope, t, from)
  {
    forall c | c in from && forall j :: 0 <= j < i + 1 ==> lock[j].component != Some(c) ensures to[c] == from[c] {
      assert forall j :: 0 <= j < i ==> lock[j].component != Some(c);
    }
  }

  lemma MovedOneMore(lock: seq<LockImage>, scope: RolloutScope, t: Target, from: ImageSet, to: ImageSet,
                     c: Component, pin: Pin)
    requires MovedSet(lock, scope, t, from, to) && c in from
    requires Moves(scope, t.role, c) && IsLocked(lock, c, t.architecture, pin)
    requires scope == CoreImage && Core in from ==> from[Core].repository == pin.repository
    ensures MovedSet(lock, scope, t, from, to[c := pin])
  {
    hide IsLocked;
  }

  lemma OthersFollow(lock: seq<LockImage>, scope: RolloutScope, t: Target, to: ImageSet, i: nat, c: Component, pin: Pin)
    requires i < |lock| && lock[i].component == Some(c) && ValidLock(lock) && c in to
    requires forall j :: 0 <= j < i ==> FollowsLock(lock[j], scope, t, to)
    ensures forall j :: 0 <= j < i ==> FollowsLock(lock[j], scope, t, to[c := pin])
  {
    hide HexLock;
    forall j | 0 <= j < i ensures FollowsLock(lock[j], scope, t, to[c := pin]) {
      assert FollowsLock(lock[j], scope, t, to) && lock[j].component != Some(c);
    }
  }

  lemma LockApplied(lock: seq<LockImage>, scope: RolloutScope, t: Target, from: ImageSet, to: ImageSet, i: nat, pin: Pin)
    requires i < |lock| && BuiltBelow(lock, scope, t, from, to, i) && ValidLock(lock) && from.Keys == RoleComponents(t.role)
    requires lock[i].component.Some? && Moves(scope, t.role, lock[i].component.value) && t.architecture in lock[i].platforms
    requires pin == Pin(lock[i].pinned.repository, lock[i].platforms[t.architecture])
    requires scope == CoreImage ==> from[Core].repository == pin.repository
    ensures lock[i].component.value in from
    ensures BuiltBelow(lock, scope, t, from, to[lock[i].component.value := pin], i + 1)
    ensures FollowsLock(lock[i], scope, t, from) <==> pin == from[lock[i].component.value]
  {
    hide ValidLock, MovedSet;
    var c := lock[i].component.value;
    assert IsLocked(lock, c, t.architecture, pin);
    MovedOneMore(lock, scope, t, from, to, c, pin);
    MovedKeys(lock, scope, t, from, to);
    OthersFollow(lock, scope, t, to, i, c, pin);
    forall d | d in from && forall j :: 0 <= j < i + 1 ==> lock[j].component != Some(d) ensures to[c := pin][d] == from[d] {
      assert lock[i].component != Some(d);
      assert forall j :: 0 <= j < i ==> lock[j].component != Some(d);
    }
  }

  lemma MovedKeys(lock: seq<LockImage>, scope: RolloutScope, t: Target, from: ImageSet, to: ImageSet)
    requires MovedSet(lock, scope, t, from, to)
    ensures to.Keys == from.Keys
  {
  }

  method TargetSet(lock: seq<LockImage>, scope: RolloutScope, t: Target, from: ImageSet)
    returns (ok: bool, to: ImageSet, changed: bool)
    requires from.Keys == RoleComponents(t.role) && scope != Unsupported && ValidLock(lock)
    ensures ok <==> KeepsRepository(lock, scope, from)
    ensures ok ==> Built(lock, scope, t, from, to) && (changed <==> Outdated(lock, scope, t, from))
  {
    hide ValidLock, FollowsLock, MovedSet;
    to, changed := from, false;
    NothingBuilt(lock, scope, t, from);
    for i := 0 to |lock|
      invariant BuiltBelow(lock, scope, t, from, to, i)
      invariant changed <==> exists j :: 0 <= j < i && !FollowsLock(lock[j], scope, t, from)
      invariant scope == CoreImage ==> forall j :: 0 <= j < i && lock[j].component == Some(Core) ==>
        from[Core].repository == lock[j].pinned.repository
    {
      hide BuiltBelow;
      var image := lock[i];
      if image.component.None? || !Moves(scope, t.role, image.component.value) {
        LockSkipped(lock, scope, t, from, to, i);
        continue;
      }
      var c := image.component.value;
      if scope == CoreImage && from[Core].repository != image.pinned.repository {
        return false, to, changed;
      }
      if t.architecture in image.platforms {
        var pin := Pin(image.pinned.repository, image.platforms[t.architecture]);
        LockApplied(lock, scope, t, from, to, i, pin);
        changed := changed || pin != from[c];
        to := to[c := pin];
      } else {
        LockSkipped(lock, scope, t, from, to, i);
      }
    }
    ok := true;
  }

  /** From here on devnets form quorum types whose sessions the quiet part of the
    * DKG cycle does not cover. */
  const CORE_SCOPE_VALIDATOR_LIMIT := 40

  /** The requests that have target images. */
  ghost predicate Upgradable(targets: seq<Target>, lock: seq<LockImage>, from: FleetImages, scope: RolloutScope) {
    && scope != Unsupported && (scope == CoreImage ==> |OfRole(targets, Validator)| < CORE_SCOPE_VALIDATOR_LIMIT)
    && ValidLock(lock) && ValidImages(targets, from)
    && (forall t :: t in targets ==> t.name in from && KeepsRepository(lock, scope, from[t.name]))
    && (exists t :: t in targets && Outdated(lock, scope, t, from[t.name]))
  }

  /** The reviewed target images, or nothing when the request is refused: it is
    * unless the scope is supported for this fleet, the lock is valid and keeps
    * Core's repository, and has something new for some node. */
  method UpgradeTargets(targets: seq<Target>, lock: seq<LockImage>, from: FleetImages, scope: RolloutScope)
    returns (to: Option<FleetImages>)
    requires UniqueNames(targets)
    ensures to.Some? <==> Upgradable(targets, lock, from, scope)
    ensures to.Some? ==> ValidImages(targets, to.value) && MovedImages(targets, lock, scope, from, to.value)
    ensures to.Some? ==> to.value != from
    ensures to.Some? ==> forall t, i :: t in targets && 0 <= i < |lock| ==>
              FollowsLock(lock[i], scope, t, to.value[t.name])
  {
    hide ValidLock, KeepsRepository, Outdated, Built, MovedImages, FollowsLock, UniqueNames, OfRole, ValidSet;
    if scope == CoreImage && |OfRole(targets, Validator)| >= CORE_SCOPE_VALIDATOR_LIMIT {
      return None;
    }
    var valid := ValidateImages(targets, from);
    if !ValidLock(lock) || !valid || scope == Unsupported {
      return None;
    }
    var ok, images, changed := BuildImages(targets, lock, from, scope);
    if !ok || !changed {
      return None;
    }
    valid := ValidateImages(targets, images);
    if !valid {
      return None;
    }
    SomethingMoved(targets, lock, scope, from, images);
    to := Some(images);
  }

  lemma SomethingMoved(targets: seq<Target>, lock: seq<LockImage>, scope: RolloutScope, from: FleetImages, to: FleetImages)
    requires forall t :: t in targets ==> t.name in from && t.name in to && Built(lock, scope, t, from[t.name], to[t.name])
    requires to.Keys == from.Keys && exists t :: t in targets && Outdated(lock, scope, t, from[t.name])
    ensures to != from && MovedImages(targets, lock, scope, from, to)
    ensures forall t, i :: t in targets && 0 <= i < |lock| ==> FollowsLock(lock[i], scope, t, to[t.name])
  {
    hide MovedSet, FollowsLock;
    var t :| t in targets && Outdated(lock, scope, t, from[t.name]);
    assert Built(lock, scope, t, from[t.name], to[t.name]);
  }

  /** The target images of every node. */
  method BuildImages(targets: seq<Target>, lock: seq<LockImage>, from: FleetImages, scope: RolloutScope)
    returns (ok: bool, images: FleetImages, changed: bool)
    requires UniqueNames(targets) && ValidImages(targets, from) && ValidLock(lock) && scope != Unsupported
    ensures ok <==> forall t :: t in targets ==> t.name in from && KeepsRepository(lock, scope, from[t.name])
    ensures ok ==> (changed <==> exists t :: t in targets && Outdated(lock, scope, t, from[t.name]))
    ensures ok ==> images.Keys == from.Keys && ValidImages(targets, images)
    ensures ok ==> forall t :: t in targets ==> Built(lock, scope, t, from[t.name], images[t.name])
  {
    hide *;
    images, changed := from, false;
    StillToBuild(targets, lock, scope, from);
    for i := 0 to |targets|
      invariant images.Keys == from.Keys && BuiltUpTo(targets, lock, scope, from, images, i)
      invariant forall j :: 0 <= j < i ==> targets[j].name in from && KeepsRepository(lock, scope, from[targets[j].name])
      invariant changed <==> exists j :: 0 <= j < i && Outdated(lock, scope, targets[j], from[targets[j].name])
    {
      var t := targets[i];
      SetKeys(targets, from, t);
      var set1, moved;
      ok, set1, moved := TargetSet(lock, scope, t, from[t.name]);
      if !ok {
        return;
      }
      BuiltIsValid(lock, scope, t, from[t.name], set1);
      OneMoreBuilt(targets, lock, scope, from, images, i, set1);
      images := images[t.name := set1];
      changed := changed || moved;
    }
    AllBuilt(targets, lock, scope, from, images);
    ok := true;
  }

  /** The images of the first i nodes are built, the others still to do. */
  ghost predicate BuiltUpTo(targets: seq<Target>, lock: seq<LockImage>, scope: RolloutScope,
                            from: FleetImages, images: FleetImages, i: nat)
  {
    && i <= |targets|
    && (forall j :: 0 <= j < |targets| ==> targets[j].name in from && targets[j].name in images)
    && (forall j :: i <= j < |targets| ==> images[targets[j].name] == from[targets[j].name])
    && (forall j :: 0 <= j < i ==>
          Built(lock, scope, targets[j], from[targets[j].name], images[targets[j].name])
          && ValidSet(targets[j].role, images[targets[j].name]))
  }

  lemma OneMoreBuilt(targets: seq<Target>, lock: seq<LockImage>, scope: RolloutScope,
                     from: FleetImages, images: FleetImages, i: nat, built: ImageSet)
    requires UniqueNames(targets) && i < |targets| && BuiltUpTo(targets, lock, scope, from, images, i)
    requires Built(lock, scope, targets[i], from[targets[i].name], built) && ValidSet(targets[i].role, built)
    ensures BuiltUpTo(targets, lock, scope, from, images[targets[i].name := built], i + 1)
  {
    hide Built, ValidSet;
    assert forall j :: 0 <= j < |targets| && j != i ==>
      images[targets[i].name := built][targets[j].name] == images[targets[j].name];
  }

  lemma SetKeys(targets: seq<Target>, images: FleetImages, t: Target)
    requires ValidImages(targets, images) && t in targets
    ensures t.name in images && ValidSet(t.role, images[t.name]) && images[t.name].Keys == RoleComponents(t.role)
  {
    assert t.name in Names(targets);
  }

  lemma StillToBuild(targets: seq<Target>, lock: seq<LockImage>, scope: RolloutScope, from: FleetImages)
    requires ValidImages(targets, from)
    ensures BuiltUpTo(targets, lock, scope, from, from, 0)
  {
    forall j | 0 <= j < |targets| ensures targets[j].name in from {
      SetKeys(targets, from, targets[j]);
    }
  }

  lemma AllBuilt(targets: seq<Target>, lock: seq<LockImage>, scope: RolloutScope, from: FleetImages, images: FleetImages)
    requires BuiltUpTo(targets, lock, scope, from, images, |targets|) && images.Keys == from.Keys && ValidImages(targets, from)
    ensures ValidImages(targets, images)
    ensures forall t :: t in targets ==>
      t.name in from && t.name in images && Built(lock, scope, t, from[t.name], images[t.name])
  {
    hide Built, ValidSet;
  }

  /** Hence what the journal validator demands of a rollout's bounds: a Core
    * rollout keeps every other component, any other rollout keeps Core, and
    * nodes outside the rollout change their helper at most. */
  lemma MovedWithinBounds(targets: seq<Target>, lock: seq<LockImage>, scope: RolloutScope, from: FleetImages, to: FleetImages, t: Target)
    requires t in targets && scope != Unsupported
    requires ValidImages(targets, from) && ValidImages(targets, to) && MovedImages(targets, lock, scope, from, to)
    ensures WithinScope(ProgressScope(scope), t, from, to)
  {
    assert t.name in Names(targets);
    assert MovedSet(lock, scope, t, from[t.name], to[t.name]);
  }

  ghost predicate WithinScope(scope: Scope, t: Target, from: FleetImages, to: FleetImages) {
    && t.name in from && t.name in to && from[t.name].Keys == to[t.name].Keys && Core in from[t.name]
    && (scope == CoreScope ==> forall c :: c in from[t.name] && c != Core ==> to[t.name][c] == from[t.name][c])
    && (scope != CoreScope ==> to[t.name][Core] == from[t.name][Core])
    && (!Tracked(scope, t) ==> forall c :: c in from[t.name] && c != Helper ==> to[t.name][c] == from[t.name][c])
  }
}
