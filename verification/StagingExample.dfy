/** A devnet of one wallet and nine validators that runs a sidecar image, and a
  * rollout of a new Drive image whose release requests none. */
module StagingExample {
  import opened Claims
  import Mining
  import opened Text
  import opened UpgradeEvidence
  import opened UpgradePlan
  import opened UpgradeRecord
  import opened UpgradeRunner
  import opened Wrappers

  function Name(i: nat): (name: string)
    ensures |name| == i + 1 && forall c :: c in name ==> c == 'n'
  {
    seq(i + 1, _ => 'n')
  }

  function Digest(c: char): (digest: string)
    ensures |digest| == 64 && digest[0] == c && forall d :: d in digest ==> d == c
  {
    seq(64, _ => c)
  }

  function Node(i: nat): Target {
    Target(Name(i), if i == 0 then Wallet else Validator, "amd64")
  }

  function Fleet(): (targets: seq<Target>)
    ensures |targets| == 10 && forall i :: 0 <= i < 10 ==> targets[i] == Node(i)
  {
    seq(10, i requires 0 <= i < 10 => Node(i))
  }

  function NodeImages(role: Role): ImageSet {
    map c | c in RoleComponents(role) :: Pin("image", Digest('a'))
  }

  function RoleOf(name: string): Role {
    if |name| == 1 then Wallet else Validator
  }

  function Images(): FleetImages {
    map n | n in Names(Fleet()) :: NodeImages(RoleOf(n))
  }

  /** The release moves Drive. */
  function Lock(): seq<LockImage> {
    [LockImage(Some(Drive), Pin("image", Digest('b')), map["amd64" := Digest('b')])]
  }

  function Deployed(): DeploymentPlan {
    DeploymentPlan("plan", 1, Fleet(), Images())
  }

  function Network(): Record {
    Record(Some(Deployment("plan", true, Digest('a'), map n | n in Names(Fleet()) :: n,
                           [Sidecar(1, "redis", Pin("redis", Digest('a')))])), None, None)
  }

  function Members(): (members: seq<string>)
    ensures |members| == 9 && forall i :: 0 <= i < 9 ==> members[i] == Name(i + 1)
  {
    seq(9, i requires 0 <= i < 9 => Name(i + 1))
  }

  function Containers(): map<Component, string> {
    map[Drive := Digest('a'), Tenderdash := Digest('a'), Dapi := Digest('a'), Gateway := Digest('a')]
  }

  function NodeSample(): Sample {
    Sample(Some(CoreSample(Digest('a'), Some(0), Digest('a'), Digest('a'))),
           Some(PlatformSample(1, Members(), Containers(), map[])))
  }

  function Shown(): Observation {
    map n | n in Names(Fleet()) :: NodeSample()
  }

  lemma FleetNodes()
    ensures forall t :: t in Fleet() <==> exists i :: 0 <= i < 10 && t == Node(i)
    ensures forall t :: t in Fleet() ==> t.name in Names(Fleet()) && t.role == RoleOf(t.name) && t.architecture == "amd64"
  {
    forall t | t in Fleet() ensures exists i :: 0 <= i < 10 && t == Node(i) {
      var i :| 0 <= i < 10 && Fleet()[i] == t;
      assert t == Node(i);
    }
    forall i | 0 <= i < 10 ensures Node(i) in Fleet() {
      assert Fleet()[i] == Node(i);
    }
  }

  lemma FleetIsDevnet()
    ensures UniqueNames(Fleet()) && DevnetProfile(Fleet())
  {
    FleetNodes();
    assert Node(0) in Fleet();
    forall a, b | a in Fleet() && b in Fleet() && a.role == b.role == Wallet ensures a == b {
      assert a == Node(0) && b == Node(0);
    }
  }

  lemma ImagesAreValid()
    ensures ValidImages(Fleet(), Images())
  {
    FleetNodes();
    forall t | t in Fleet() ensures ValidSet(t.role, Images()[t.name]) {
      assert Images()[t.name] == NodeImages(t.role);
    }
  }

  lemma DriveIsOutdated()
    ensures Upgradable(Fleet(), Lock(), Images(), Platform)
  {
    FleetNodes();
    ImagesAreValid();
    assert Hex64(Digest('b'));
    assert ValidLock(Lock());
    var t := Node(1);
    assert t in Fleet() && t.role == Validator;
    assert Images()[t.name] == NodeImages(Validator);
    assert Images()[t.name][Drive].digest[0] == 'a';
    assert !FollowsLock(Lock()[0], Platform, t, Images()[t.name]);
    assert Outdated(Lock(), Platform, t, Images()[t.name]);
  }

  lemma LowerName(i: nat)
    ensures Lower(Name(i)) == Name(i)
  {
  }

  lemma MembersAreKnown()
    ensures KnownDistinct(Members(), KnownMembers(Fleet(), Network().deployment.value))
  {
    FleetNodes();
    var d := Network().deployment.value;
    forall i | 0 <= i < 9 ensures Lower(Members()[i]) == Name(i + 1) && Name(i + 1) in KnownMembers(Fleet(), d) {
      assert Node(i + 1) in Fleet();
      assert At(d.proTxHashes, Node(i + 1).name, "") == Name(i + 1);
      LowerName(i + 1);
    }
  }

  lemma ShownIsEvidence()
    ensures WellFormed(Shown()) && Grounded(Deployed(), Network(), Shown())
  {
    FleetNodes();
    assert Hex64(Digest('a'));
    forall t | t in Fleet() ensures NodeEvidence(Fleet(), 1, Network(), Shown(), "", t).Some? {
      assert At(Shown(), t.name, Nothing) == NodeSample();
      MembersAreKnown();
    }
    assert Network().(upgrade := None) == Network();
  }

  lemma GoalIsReviewed(u: RolloutPlan)
    requires u == RolloutPlan(Digest('c'), "", Platform, Images(), u.goal)
    requires ValidImages(Fleet(), u.goal) && MovedImages(Fleet(), Lock(), Platform, Images(), u.goal)
    ensures Reviewed(Deployed(), u)
  {
    hide MovedImages, ValidImages, DevnetProfile;
    FleetIsDevnet();
    ImagesAreValid();
    forall t | t in Fleet() ensures WithinScope(ProgressScope(Platform), t, Images(), u.goal) {
      MovedWithinBounds(Fleet(), Lock(), Platform, Images(), u.goal, t);
    }
    assert Hex64(u.id) && u.id != "";
  }

  lemma NetworkIsUnstageable(u: RolloutPlan)
    requires u == RolloutPlan(Digest('c'), "", Platform, Images(), u.goal)
    ensures Unstageable(Deployed(), Network(), u, map[], Shown())
  {
    hide Grounded, WellFormed, Images;
    ShownIsEvidence();
  }

  /** The example's first moment meets the invariant of all runs. */
  lemma NetworkIsSafe(e: Execution)
    requires e.p == Deployed() && e.store == e.hosts.store
    requires e.store.cell == Cell(Network(), []) && e.store.attempts == [] && e.hosts.unverified == {}
    ensures e.Always()
  {
    assert Hex64(Digest('a'));
    assert Sound(Fleet(), Network());
    assert Good(Deployed(), Network(), {});
    assert forall x :: x in Cell(Network(), []).Chain() ==> x == Network();
  }

  /** The claimed record is the only one there is. */
  lemma OnlyNetwork(x: Record)
    requires x in Cell(Network(), []).Chain()
    ensures x == Network()
  {
  }

  /** Nothing goes wrong in this run: no call and no save fails, every node is
    * healthy and shows the evidence, and all stage the release. It fails, and
    * touches no node. */
  method ReleaseWithoutSidecars() returns (goal: FleetImages, hosts: Hosts, reply: Reply)
    ensures goal != Images() && MovedImages(Fleet(), Lock(), Platform, Images(), goal)
    ensures reply.Failed? && !hosts.flawed && hosts.calls == []
  {
    hide *;
    FleetIsDevnet();
    DriveIsOutdated();
    ShownIsEvidence();
    var target := UpgradeTargets(Fleet(), Lock(), Images(), Platform);
    goal := target.value;
    var u := RolloutPlan(Digest('c'), "", Platform, Images(), goal);
    GoalIsReviewed(u);
    var store := new Store.Calm(Network());
    hosts := new Hosts(store, map[], Mining.State(0, true, [], []), true, Shown());
    NetworkIsUnstageable(u);
    var e := new Execution(Deployed(), hosts);
    NetworkIsSafe(e);
    NothingRequested(hosts, u);
    reply := e.Upgrade(u);
    OnlyNetwork(e.start);
    NothingFails(e);
  }

  lemma NothingRequested(hosts: Hosts, u: RolloutPlan)
    requires hosts.requests == map[]
    ensures hosts.Requested(u) == map[]
  {
  }

  lemma NothingFails(e: Execution)
    requires e.hosts.calm && e.store.calm && e.hosts.shown == Shown() && WellFormed(Shown())
    ensures e.Calm()
  {
  }
}
