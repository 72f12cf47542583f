/** The rolling-upgrade controller: one node is withdrawn at a time, the intent
  * is durable before the node is touched, and a resumed rollout starts with the
  * node it left pending. */
module UpgradeRunner {
  import opened Claims
  import Mining
  import opened Text
  import opened UpgradeRecord
  import opened UpgradePlan
  import opened UpgradeEvidence
  import opened Wrappers

  datatype DeploymentPlan = DeploymentPlan(id: string, protocol: nat, targets: seq<Target>, images: FleetImages)

  datatype RolloutPlan = RolloutPlan(
    id: string, previousId: string, scope: RolloutScope, source: FleetImages, goal: FleetImages)

  /** A plan that passed review and UpgradePlan.UpgradeTargets. */
  ghost predicate Reviewed(p: DeploymentPlan, u: RolloutPlan) {
    && DevnetProfile(p.targets)
    && Hex64(u.id) && (u.previousId == "" || Hex64(u.previousId)) && u.previousId != u.id
    && u.scope != Unsupported
    && ValidImages(p.targets, u.source) && ValidImages(p.targets, u.goal)
    && forall t :: t in p.targets ==> WithinScope(ProgressScope(u.scope), t, u.source, u.goal)
  }

  // -------------------------------------------- what every record satisfies

  predicate AllDone(g: Progress) {
    forall n :: n in g.completed ==> g.completed[n]
  }

  /** Where the runtime images of one node stand: the goal for a node that is
    * done or being replaced, the source for every other tracked node; the
    * nodes that only move their helper follow at the very end. */
  predicate Placed(g: Progress, images: FleetImages, t: Target)
    requires t.name in images && t.name in g.source && t.name in g.goal
  {
    if Tracked(g.scope, t) then
      images[t.name] == if Reached(g, t.name) then g.goal[t.name] else g.source[t.name]
    else
      images[t.name] == g.source[t.name] || (AllDone(g) && images[t.name] == g.goal[t.name])
  }

  /** One node as the record describes it. */
  ghost predicate TargetSound(g: Progress, images: FleetImages, t: Target) {
    ValidTarget(g, images, t) && WithinScope(g.scope, t, g.source, g.goal) && Placed(g, images, t)
  }

  ghost predicate Sound(targets: seq<Target>, x: Record) {
    if x.upgrade.None? then x.runtime.None?
    else
      && ValidFrame(targets, x)
      && (x.upgrade.value.currentNode != "" ==> !IsDone(x.upgrade.value, x.upgrade.value.currentNode))
      && forall t :: t in targets ==> TargetSound(x.upgrade.value, x.runtime.value.images, t)
  }

  /** Sound records pass the validator. */
  lemma SoundIsValid(targets: seq<Target>, x: Record)
    requires Sound(targets, x)
    ensures ValidUpgrade(targets, x)
  {
    if x.upgrade.Some? {
      forall t | t in targets ensures ValidTarget(x.upgrade.value, x.runtime.value.images, t) {
        assert TargetSound(x.upgrade.value, x.runtime.value.images, t);
      }
    }
  }

  /** The nodes of a rollout that are not done. */
  function Pending(completed: map<string, bool>): set<string> {
    set n | n in completed && !completed[n]
  }

  /** Progress left in a rollout: nodes not done, counted twice, less one while
    * a node is in hand. */
  function Remaining(g: Progress): int {
    2 * |Pending(g.completed)| - (if g.currentNode != "" then 1 else 0)
  }

  /** Within one rollout the intent never changes, no progress is lost and what
    * remains never grows. */
  ghost predicate Ahead(x: Record, y: Record) {
    x.upgrade.Some? && y.upgrade.Some? && x.upgrade.value.planId == y.upgrade.value.planId ==>
      && x.upgrade.value.source == y.upgrade.value.source && x.upgrade.value.goal == y.upgrade.value.goal
      && x.upgrade.value.baseline == y.upgrade.value.baseline && x.upgrade.value.scope == y.upgrade.value.scope
      && Remaining(y.upgrade.value) <= Remaining(x.upgrade.value)
      && forall n :: IsDone(x.upgrade.value, n) ==> IsDone(y.upgrade.value, n)
  }

  predicate Follows(x: Record, u: RolloutPlan) {
    && x.upgrade.Some? && x.runtime.Some? && x.deployment.Some?
    && x.upgrade.value.planId == u.id
    && x.upgrade.value.source == u.source && x.upgrade.value.goal == u.goal
    && x.upgrade.value.scope == ProgressScope(u.scope)
  }

  // --------------------------------------------------- updates of the record

  function WithProgress(r: Record, g: Progress): Record {
    r.(upgrade := Some(g))
  }

  function Begun(r: Record, p: DeploymentPlan, u: RolloutPlan, baseline: map<string, Preservation>): Record
    requires r.deployment.Some?
  {
    var completed := map n | n in TrackedNames(p.targets, ProgressScope(u.scope)) :: false;
    r.(runtime := Some(Runtime(p.id, u.id, u.source, EffectiveSidecars(r))),
       upgrade := Some(Progress(u.id, u.previousId, Staging, "", u.source, u.goal, baseline, completed, 0,
                                ProgressScope(u.scope), [], map[])))
  }

  /** The sidecar pins the fleet runs: the last rollout's, else the deployment's. */
  function EffectiveSidecars(r: Record): seq<Sidecar>
    requires r.deployment.Some?
  {
    if r.runtime.Some? && r.runtime.value.sidecars != [] then r.runtime.value.sidecars
    else r.deployment.value.sidecars
  }

  function InPhase(r: Record, phase: Phase): Record
    requires r.upgrade.Some?
  {
    WithProgress(r, r.upgrade.value.(phase := phase))
  }

  function Withdrawn(r: Record, u: RolloutPlan, name: string): Record
    requires r.upgrade.Some? && r.runtime.Some? && name in u.goal
  {
    r.(runtime := Some(r.runtime.value.(images := r.runtime.value.images[name := u.goal[name]])),
       upgrade := Some(r.upgrade.value.(phase := Applying, currentNode := name)))
  }

  function Completed(r: Record, name: string): Record
    requires r.upgrade.Some?
  {
    WithProgress(r, r.upgrade.value.(completed := r.upgrade.value.completed[name := true], currentNode := ""))
  }

  function Finished(r: Record, u: RolloutPlan, at: nat): Record
    requires r.upgrade.Some? && r.runtime.Some?
  {
    var g := r.upgrade.value;
    r.(runtime := Some(r.runtime.value.(images := u.goal,
                                        sidecars := if g.sidecars != [] then g.sidecars else r.runtime.value.sidecars)),
       upgrade := Some(g.(phase := Complete, observedAt := at)))
  }

  lemma BegunTarget(p: DeploymentPlan, u: RolloutPlan, g: Progress, t: Target)
    requires ValidImages(p.targets, u.source) && ValidImages(p.targets, u.goal) && t in p.targets
    requires g.source == u.source && g.goal == u.goal && g.phase == Staging && g.currentNode == "" && t.name != ""
    requires WithinScope(g.scope, t, u.source, u.goal)
    requires t.name in g.baseline && ValidBaseline(t.role, g.baseline[t.name])
    requires !IsDone(g, t.name)
    ensures TargetSound(g, u.source, t)
  {
    assert t.name in Names(p.targets);
  }

  lemma BegunFrame(p: DeploymentPlan, u: RolloutPlan, r: Record, baseline: map<string, Preservation>)
    requires Hex64(u.id) && (u.previousId == "" || Hex64(u.previousId))
    requires ValidImages(p.targets, u.source) && ValidImages(p.targets, u.goal)
    requires r.deployment.Some? && r.deployment.value.planId == p.id && ValidSidecars(EffectiveSidecars(r))
    requires baseline.Keys == Names(p.targets)
    ensures ValidFrame(p.targets, Begun(r, p, u, baseline))
  {
  }

  lemma BegunIsSound(p: DeploymentPlan, u: RolloutPlan, r: Record, baseline: map<string, Preservation>)
    requires Reviewed(p, u) && Sound(p.targets, r)
    requires r.deployment.Some? && r.deployment.value.planId == p.id && ValidSidecars(r.deployment.value.sidecars)
    requires baseline.Keys == Names(p.targets)
    requires forall t :: t in p.targets ==> ValidBaseline(t.role, baseline[t.name])
    ensures Sound(p.targets, Begun(r, p, u, baseline))
    ensures Follows(Begun(r, p, u, baseline), u)
  {
    BegunFrame(p, u, r, baseline);
    var g := Begun(r, p, u, baseline).upgrade.value;
    forall t | t in p.targets ensures TargetSound(g, u.source, t) {
      assert t.name in Names(p.targets);
      BegunTarget(p, u, g, t);
    }
  }

  lemma PhaseTarget(g: Progress, images: FleetImages, t: Target, phase: Phase)
    requires TargetSound(g, images, t) && phase != Complete
    ensures TargetSound(g.(phase := phase), images, t)
  {
  }

  lemma PhaseAhead(r: Record, phase: Phase)
    requires r.upgrade.Some?
    ensures Ahead(r, InPhase(r, phase))
  {
  }

  lemma PhaseFrame(targets: seq<Target>, r: Record, phase: Phase)
    requires ValidFrame(targets, r) && phase != Complete && !phase.OtherPhase?
    ensures ValidFrame(targets, InPhase(r, phase))
  {
  }

  lemma PhaseTargets(targets: seq<Target>, r: Record, phase: Phase)
    requires Sound(targets, r) && r.upgrade.Some?
    requires phase != Complete && !phase.OtherPhase?
    ensures Sound(targets, InPhase(r, phase))
  {
    hide TargetSound;
    PhaseFrame(targets, r, phase);
    forall t | t in targets
      ensures TargetSound(InPhase(r, phase).upgrade.value, r.runtime.value.images, t)
    {
      PhaseTarget(r.upgrade.value, r.runtime.value.images, t, phase);
    }
  }

  lemma PhaseIsSound(targets: seq<Target>, r: Record, phase: Phase)
    requires Sound(targets, r) && r.upgrade.Some?
    requires phase != Complete && !phase.OtherPhase?
    ensures Sound(targets, InPhase(r, phase)) && Ahead(r, InPhase(r, phase))
  {
    hide Sound;
    PhaseTargets(targets, r, phase);
    PhaseAhead(r, phase);
  }

  lemma WithdrawnTarget(g: Progress, images: FleetImages, name: string, x: Target)
    requires TargetSound(g, images, x) && name in g.goal && name != ""
    requires !IsDone(g, name) && (g.currentNode == "" || g.currentNode == name)
    requires x.name == name ==> Tracked(g.scope, x)
    requires Tracked(g.scope, x) ==> x.name != ""
    requires name in g.completed
    ensures TargetSound(g.(phase := Applying, currentNode := name), images[name := g.goal[name]], x)
  {
  }

  lemma ImagesUpdated(targets: seq<Target>, images: FleetImages, goal: FleetImages, name: string)
    requires ValidImages(targets, images) && ValidImages(targets, goal) && name in goal
    ensures ValidImages(targets, images[name := goal[name]])
  {
  }

  lemma WithdrawnFrame(targets: seq<Target>, r: Record, u: RolloutPlan, name: string)
    requires ValidFrame(targets, r) && Follows(r, u)
    requires name in u.goal && name in TrackedNames(targets, r.upgrade.value.scope)
    ensures ValidFrame(targets, Withdrawn(r, u, name))
  {
    ImagesUpdated(targets, r.runtime.value.images, u.goal, name);
  }

  lemma WithdrawnAhead(r: Record, u: RolloutPlan, name: string)
    requires r.upgrade.Some? && r.runtime.Some? && name in u.goal && name != ""
    ensures Ahead(r, Withdrawn(r, u, name))
  {
  }

  lemma WithdrawnTargets(targets: seq<Target>, r: Record, u: RolloutPlan, t: Target)
    requires UniqueNames(targets) && Sound(targets, r) && Follows(r, u)
    requires t in targets && Tracked(r.upgrade.value.scope, t) && !IsDone(r.upgrade.value, t.name)
    requires r.upgrade.value.currentNode == "" || r.upgrade.value.currentNode == t.name
    ensures t.name in u.goal && t.name != ""
    ensures Sound(targets, Withdrawn(r, u, t.name))
  {
    var g, images := r.upgrade.value, r.runtime.value.images;
    assert t.name in Names(targets) && t.name in TrackedNames(targets, g.scope);
    WithdrawnFrame(targets, r, u, t.name);
    forall x | x in targets
      ensures TargetSound(g.(phase := Applying, currentNode := t.name), images[t.name := u.goal[t.name]], x)
    {
      if x.name == t.name {
        SameName(targets, x, t);
      }
      WithdrawnTarget(g, images, t.name, x);
    }
  }

  lemma WithdrawnIsSound(targets: seq<Target>, r: Record, u: RolloutPlan, t: Target)
    requires UniqueNames(targets) && Sound(targets, r) && Follows(r, u)
    requires t in targets && Tracked(r.upgrade.value.scope, t) && !IsDone(r.upgrade.value, t.name)
    requires r.upgrade.value.currentNode == "" || r.upgrade.value.currentNode == t.name
    ensures t.name in u.goal && t.name != ""
    ensures Sound(targets, Withdrawn(r, u, t.name)) && Ahead(r, Withdrawn(r, u, t.name))
    ensures Follows(Withdrawn(r, u, t.name), u)
  {
    hide Sound, UniqueNames;
    WithdrawnTargets(targets, r, u, t);
    WithdrawnAhead(r, u, t.name);
  }

  lemma CompletedTarget(g: Progress, images: FleetImages, x: Target)
    requires TargetSound(g, images, x) && g.currentNode in g.completed && g.phase != Complete
    requires !IsDone(g, g.currentNode) && x.name != ""
    ensures TargetSound(g.(completed := g.completed[g.currentNode := true], currentNode := ""), images, x)
  {
  }

  lemma CompletedFrame(targets: seq<Target>, r: Record)
    requires ValidFrame(targets, r)
    requires r.upgrade.value.currentNode != "" && r.upgrade.value.phase != Complete
    ensures ValidFrame(targets, Completed(r, r.upgrade.value.currentNode))
  {
    var g := r.upgrade.value;
    assert g.completed[g.currentNode := true].Keys == g.completed.Keys;
  }

  lemma CompletedTargets(targets: seq<Target>, g: Progress, images: FleetImages)
    requires forall x :: x in targets ==> TargetSound(g, images, x)
    requires forall x :: x in targets ==> x.name != ""
    requires g.currentNode in g.completed && g.phase != Complete && !IsDone(g, g.currentNode)
    ensures forall x :: x in targets ==>
      TargetSound(g.(completed := g.completed[g.currentNode := true], currentNode := ""), images, x)
  {
    forall x | x in targets
      ensures TargetSound(g.(completed := g.completed[g.currentNode := true], currentNode := ""), images, x)
    {
      CompletedTarget(g, images, x);
    }
  }

  lemma PendingShrinks(completed: map<string, bool>, name: string)
    requires name in completed && !completed[name]
    ensures |Pending(completed)| >= 1 && |Pending(completed[name := true])| == |Pending(completed)| - 1
  {
    assert name in Pending(completed);
    assert Pending(completed[name := true]) == Pending(completed) - {name};
  }

  lemma CompletedAhead(r: Record)
    requires r.upgrade.Some? && r.upgrade.value.currentNode in r.upgrade.value.completed
    requires r.upgrade.value.currentNode != "" && !IsDone(r.upgrade.value, r.upgrade.value.currentNode)
    ensures Ahead(r, Completed(r, r.upgrade.value.currentNode))
    ensures Remaining(Completed(r, r.upgrade.value.currentNode).upgrade.value) == Remaining(r.upgrade.value) - 1
  {
    PendingShrinks(r.upgrade.value.completed, r.upgrade.value.currentNode);
  }

  lemma CompletedIsSound(targets: seq<Target>, r: Record, u: RolloutPlan)
    requires Sound(targets, r) && Follows(r, u)
    requires forall x :: x in targets ==> x.name != ""
    requires r.upgrade.value.currentNode != "" && r.upgrade.value.phase != Complete
    ensures Sound(targets, Completed(r, r.upgrade.value.currentNode))
    ensures Ahead(r, Completed(r, r.upgrade.value.currentNode))
    ensures Follows(Completed(r, r.upgrade.value.currentNode), u)
    ensures Remaining(Completed(r, r.upgrade.value.currentNode).upgrade.value) == Remaining(r.upgrade.value) - 1
  {
    var r' := Completed(r, r.upgrade.value.currentNode);
    CompletedAhead(r);
    assert Sound(targets, r') by {
      CompletedFrame(targets, r);
      CompletedTargets(targets, r.upgrade.value, r.runtime.value.images);
    }
  }

  lemma FinishedTarget(g: Progress, images: FleetImages, t: Target, at: nat)
    requires TargetSound(g, images, t) && AllDone(g) && at != 0
    requires Tracked(g.scope, t) ==> t.name in g.completed
    ensures TargetSound(g.(phase := Complete, observedAt := at), g.goal, t)
  {
  }

  lemma FinishedFrame(targets: seq<Target>, r: Record, u: RolloutPlan, at: nat)
    requires ValidFrame(targets, r) && Follows(r, u) && at != 0
    requires r.upgrade.value.currentNode == "" && AllDone(r.upgrade.value)
    ensures ValidFrame(targets, Finished(r, u, at))
  {
  }

  lemma FinishedIsSound(targets: seq<Target>, r: Record, u: RolloutPlan, at: nat)
    requires Sound(targets, r) && Follows(r, u) && at != 0
    requires r.upgrade.value.currentNode == "" && AllDone(r.upgrade.value)
    ensures Sound(targets, Finished(r, u, at)) && Ahead(r, Finished(r, u, at))
    ensures Follows(Finished(r, u, at), u)
  {
    FinishedFrame(targets, r, u, at);
    var g := r.upgrade.value;
    forall t | t in targets ensures TargetSound(g.(phase := Complete, observedAt := at), u.goal, t) {
      if Tracked(g.scope, t) {
        assert t.name in TrackedNames(targets, g.scope);
      }
      FinishedTarget(g, r.runtime.value.images, t, at);
    }
  }

  // ------------------------------------------------- what all runs maintain

  /** A record that may be stored while the given nodes were changed and not
    * yet verified: only its current node can be among them. */
  ghost predicate Good(p: DeploymentPlan, x: Record, unverified: set<string>) {
    && Sound(p.targets, x)
    && (x.deployment.Some? ==> ValidSidecars(x.deployment.value.sidecars))
    && forall n :: n in unverified ==> n != "" && x.upgrade.Some? && x.upgrade.value.currentNode == n
  }

  ghost predicate Safe(p: DeploymentPlan, cell: Cell<Record>, unverified: set<string>) {
    && (forall x :: x in cell.Chain() ==> Good(p, x, unverified))
    && (forall i, j :: 0 <= i < j < |cell.Chain()| ==> Ahead(cell.Chain()[i], cell.Chain()[j]))
  }

  ghost predicate AllBehind(cell: Cell<Record>, r: Record) {
    forall x :: x in cell.Chain() ==> Ahead(x, r)
  }

  ghost predicate AllAhead(start: Record, cell: Cell<Record>) {
    forall x :: x in cell.Chain() ==> Ahead(start, x)
  }

  lemma SaveKeepsSafe(p: DeploymentPlan, cell: Cell<Record>, unverified: set<string>, r: Record, n: nat)
    requires Safe(p, cell, unverified) && Good(p, r, unverified) && AllBehind(cell, r)
    requires n <= |cell.unlanded| + 1
    ensures Safe(p, cell.Attempted(r).Landed(n), unverified)
    ensures AllBehind(cell.Attempted(r).Landed(n), r)
  {
    var chain := cell.Chain() + [r];
    assert cell.Attempted(r).Chain() == chain;
    var chain' := cell.Attempted(r).Landed(n).Chain();
    assert chain' == chain[n..];
    forall x | x in chain' ensures Good(p, x, unverified) && Ahead(x, r) {
      assert x in chain;
      assert x in cell.Chain() || x == r;
    }
    forall i, j | 0 <= i < j < |chain'| ensures Ahead(chain'[i], chain'[j]) {
      assert chain'[i] == chain[n + i] && chain'[j] == chain[n + j];
      if n + j < |cell.Chain()| {
        assert Ahead(cell.Chain()[n + i], cell.Chain()[n + j]);
      } else {
        assert chain[n + i] in cell.Chain();
      }
    }
  }

  lemma SaveKeepsAhead(start: Record, cell: Cell<Record>, r: Record, n: nat)
    requires AllAhead(start, cell) && Ahead(start, r) && n <= |cell.unlanded| + 1
    ensures AllAhead(start, cell.Attempted(r).Landed(n))
  {
    hide Ahead;
    var chain := cell.Chain() + [r];
    assert cell.Attempted(r).Chain() == chain;
    forall x | x in chain[n..] ensures Ahead(start, x) {
      assert x in chain;
    }
  }

  lemma AheadStep(cell: Cell<Record>, r: Record, r': Record)
    requires AllBehind(cell, r) && Ahead(r, r')
    requires r.upgrade.Some? && r'.upgrade.Some? && r.upgrade.value.planId == r'.upgrade.value.planId
    ensures AllBehind(cell, r')
  {
  }

  /** One upgrade-apply request: its target, the journal at that moment, the
    * nodes changed since the fleet was last verified, whether the run had
    * staged the rollout, found the preservation evidence and, since it last
    * changed a node, verified the fleet (or resumed with this very node), and
    * the network when the request was sent and when it had ended. */
  datatype Call = Call(
    target: string, cell: Cell<Record>, unverified: set<string>, prepared: bool, before: Mining.State, after: Mining.State)

  /** The whole request lies at one quiet height, with the miner stopped. */
  predicate InQuietWindow(c: Call) {
    !c.before.mining && !c.after.mining && c.before.height == c.after.height && Mining.QuietDkg(c.before.height)
  }

  predicate IsValidator(targets: seq<Target>, name: string) {
    exists t :: t in targets && t.name == name && t.role == Validator
  }

  lemma ValidatorByName(targets: seq<Target>, t: Target)
    requires UniqueNames(targets) && t in targets
    ensures IsValidator(targets, t.name) <==> t.role == Validator
  {
    if IsValidator(targets, t.name) {
      var x :| x in targets && x.name == t.name && x.role == Validator;
      SameName(targets, x, t);
    }
  }

  /** A node may be touched only while the committed record, with no save
    * outstanding, names it as the current one, not done, and as the only node
    * whose images moved ahead of the completed ones; and a validator's Core is
    * replaced only in the quiet part of the DKG cycle, with mining paused. */
  ghost predicate CallAllowed(p: DeploymentPlan, u: RolloutPlan, c: Call) {
    && c.cell.unlanded == []
    && Sound(p.targets, c.cell.stored) && Follows(c.cell.stored, u)
    && c.cell.stored.upgrade.value.currentNode == c.target && c.target != ""
    && !IsDone(c.cell.stored.upgrade.value, c.target)
    && c.unverified <= {c.target} && c.prepared
    && (u.scope == CoreImage && IsValidator(p.targets, c.target) ==> InQuietWindow(c))
  }

  /** The miner runs, and its requests say so. */
  predicate MinerRuns(s: Mining.State) {
    Mining.Accounted(s) && s.mining && !Mining.LeftStopped(s.sent)
  }

  /** A running miner runs after a success; after a failure it does unless its
    * last request left it stopped. */
  predicate MinerKept(before: Mining.State, reply: Reply, after: Mining.State) {
    MinerRuns(before) ==>
      (reply.Done? ==> MinerRuns(after)) && (reply.Failed? ==> (after.mining <==> !Mining.LeftStopped(after.sent)))
  }

  lemma MinerKeptOn(a: Mining.State, b: Mining.State, reply: Reply, c: Mining.State)
    requires MinerKept(a, Done, b) && MinerKept(b, reply, c)
    ensures MinerKept(a, reply, c)
  {
  }

  lemma MinerUntouched(a: Mining.State)
    ensures forall reply :: MinerKept(a, reply, a)
  {
  }

  lemma MinerOutlivesRun(a: Mining.State, b: Mining.State)
    ensures MinerKept(a, Killed, b)
  {
  }

  lemma MinerAsked(a: Mining.State, reply: Reply)
    ensures MinerKept(a, reply, Mining.Ask(a).0)
  {
  }

  lemma MinerPaused(a: Mining.State)
    ensures var (b, reply) := Mining.Pause(a);
      && (!reply.Done? ==> MinerKept(a, reply, b))
      && (reply.Done? ==> !b.mining && (MinerRuns(a) ==> Mining.Accounted(b)))
  {
    var (b, reply) := Mining.Pause(a);
    if MinerRuns(a) {
      Mining.PauseAccounts(a);
    }
    if reply.Done? {
      Mining.PauseEndsQuiet(a);
    }
  }

  lemma MinerResumed(a: Mining.State, b: Mining.State, replaced: Reply)
    requires !b.mining && (MinerRuns(a) ==> Mining.Accounted(b))
    ensures MinerKept(a, Mining.Conclude(b, replaced).1, Mining.Conclude(b, replaced).0)
    ensures MinerKept(a, Failed, Mining.Conclude(b, replaced).0) || Mining.Conclude(b, replaced).1.Killed?
  {
    if MinerRuns(a) {
      Mining.ConcludeAccounts(b, replaced);
    }
  }

  /** The services every validator will recreate, as staged. */
  predicate Staged(targets: seq<Target>, staged: map<string, seq<Service>>) {
    forall t :: t in targets && t.role == Validator ==> t.name in staged
  }

  predicate StagedValid(targets: seq<Target>, staged: map<string, seq<Service>>) {
    forall t :: t in targets && t.role == Validator ==> ValidChanges(At(staged, t.name, []))
  }

  /** The nodes, the miner and the image registry, as far as the controller can
    * tell. Every choice made here belongs to them; `flawed` records whether, in
    * the present run, one of them failed or was not as it should be. */
  class Hosts {
    const store: Store<Record>
    const requests: map<string, map<nat, string>>   // by rollout: the sidecar images its release requests
    const calm: bool                                // nothing fails, and the fleet shows this:
    const shown: Observation
    var net: Mining.State
    ghost var calls: seq<Call>
    ghost var unverified: set<string>
    ghost var flawed: bool
    ghost var healthy: bool                 // the last answer of Doctor, not relied on yet
    ghost var sampled: Option<Observation>  // the last samples since, not relied on yet
    ghost var staged: bool                  // by this run
    ghost var vetted: bool                  // this run found the preservation evidence
    ghost var gated: bool                   // this run verified the fleet, and changed nothing since
    ghost var pending: string               // the node this run resumed with

    constructor (store: Store<Record>, requests: map<string, map<nat, string>>, net: Mining.State, calm: bool, shown: Observation)
      ensures this.store == store && this.requests == requests && this.net == net
      ensures this.calm == calm && this.shown == shown && calls == [] && unverified == {}
    {
      this.store, this.requests, this.net, this.calm, this.shown := store, requests, net, calm, shown;
      calls, unverified, flawed := [], {}, false;
      healthy, sampled, staged, vetted, gated, pending := false, None, false, false, false, "";
    }

    function Requested(u: RolloutPlan): map<nat, string> {
      At(requests, u.id, map[])
    }

    /** A run begins with the record it acquired. */
    ghost method BeginRun()
      modifies `flawed, `healthy, `sampled, `staged, `vetted, `gated, `pending
      ensures !flawed && !healthy && sampled == None && !staged && !vetted && !gated
      ensures pending == if store.cell.stored.upgrade.Some? then store.cell.stored.upgrade.value.currentNode else ""
    {
      flawed, healthy, sampled, staged, vetted, gated := false, false, None, false, false, false;
      pending := if store.cell.stored.upgrade.Some? then store.cell.stored.upgrade.value.currentNode else "";
    }

    ghost method Note(ok: bool)
      modifies `flawed
      ensures flawed == (old(flawed) || !ok)
    {
      flawed := flawed || !ok;
    }

    /** A call or a read whose effect is not modelled. */
    method Ask() returns (reply: Reply)
      modifies `flawed
      ensures flawed == (old(flawed) || !reply.Done?)
      ensures calm ==> reply.Done?
    {
      reply := Outside();
      if calm {
        reply := Done;
      }
      Note(reply.Done?);
    }

    /** Any well-formed set of samples; silent nodes are missing. */
    method Sample(ghost p: DeploymentPlan, ghost r: Record, ghost pending: string) returns (observed: Observation)
      requires r.deployment.Some? && (r.upgrade.Some? ==> r.runtime.Some?)
      modifies `flawed, `sampled
      ensures WellFormed(observed) && sampled == Some(observed)
      ensures flawed == (old(flawed) || !EvidenceHolds(p.targets, p.protocol, r, observed, pending))
      ensures calm && WellFormed(shown) ==> observed == shown
    {
      hide EvidenceHolds;
      var silent: Observation := map[];
      assert WellFormed(silent);
      observed :| WellFormed(observed);
      if calm && WellFormed(shown) {
        observed := shown;
      }
      sampled := Some(observed);
      Note(EvidenceHolds(p.targets, p.protocol, r, observed, pending));
    }

    /** Whether every target is healthy over two samples. It should be so by the
      * last poll. */
    method Doctor(last: bool) returns (reply: Reply, well: bool)
      modifies `flawed, `healthy, `sampled
      ensures healthy == (reply.Done? && well) && sampled == None
      ensures flawed == (old(flawed) || !reply.Done? || (last && !well))
      ensures calm ==> reply.Done? && well
    {
      reply := Outside();
      well := *;
      if calm {
        reply, well := Done, true;
      }
      healthy, sampled := reply.Done? && well, None;
      Note(reply.Done? && (last ==> well));
    }

    /** Every node holds the Core image. */
    method StageCore() returns (reply: Reply)
      modifies `flawed, `staged
      ensures staged == reply.Done? && flawed == (old(flawed) || !reply.Done?)
      ensures calm ==> reply.Done?
    {
      reply := Ask();
      staged := reply.Done?;
    }

    /** Every staged node renders the target release: the sidecar images it
      * requests, and what each validator will recreate. A node that does not
      * answer, or whose Core configuration would change, fails the call. */
    method StageNodes(p: DeploymentPlan, u: RolloutPlan)
      returns (reply: Reply, requested: map<nat, string>, changes: map<string, seq<Service>>)
      modifies `flawed, `staged
      ensures this.staged == reply.Done?
      ensures reply.Done? ==> Staged(p.targets, changes) && Requestable(requested)
      ensures flawed == (old(flawed) || !(reply.Done? && requested == Requested(u) && StagedValid(p.targets, changes)))
      ensures calm && Requestable(Requested(u)) ==> reply.Done? && requested == Requested(u) && StagedValid(p.targets, changes)
    {
      reply := Outside();
      requested, changes := *, *;
      if calm {
        reply, requested, changes := Done, Requested(u), map n | n in Names(p.targets) :: [];
        NothingStagedIsValid(p.targets);
      }
      if reply.Done? && !(Staged(p.targets, changes) && Requestable(requested)) {
        reply := Failed;
      }
      staged := reply.Done?;
      Note(reply.Done? && requested == Requested(u) && StagedValid(p.targets, changes));
    }

    /** The registry resolves an image. */
    method Resolve(requested: string) returns (reply: Reply, pin: Pin)
      modifies `flawed
      ensures flawed == (old(flawed) || !(reply.Done? && Hex64(pin.digest)))
      ensures calm ==> reply.Done? && Hex64(pin.digest)
    {
      reply := Outside();
      pin := *;
      if calm {
        reply, pin := Done, Pin("", seq(64, _ => 'a'));
      }
      Note(reply.Done? && Hex64(pin.digest));
    }

    method PauseMining() returns (reply: Reply)
      modifies `net, `flawed
      ensures (net, reply) == Mining.Pause(old(net))
      ensures flawed == (old(flawed) || !reply.Done?)
    {
      var network := new Mining.Network(net);
      reply := network.PauseMiningQuietly();
      net := network.state;
      Note(reply.Done?);
    }

    /** Lets a replaced validator settle; mining resumes in any case. */
    method ResumeMining(replaced: Reply) returns (reply: Reply)
      modifies `net, `flawed
      ensures (net, reply) == Mining.Conclude(old(net), replaced)
      ensures flawed == (old(flawed) || !reply.Done?)
    {
      var network := new Mining.Network(net);
      reply := network.ConcludeReplacement(replaced);
      net := network.state;
      Note(reply.Done?);
    }

    /** The reply to upgrade-apply: an observation of the node, if any came. */
    method Apply(g: Progress, name: string)
      returns (reply: Reply, core: Option<CoreSample>, changes: Option<seq<Service>>)
      modifies `net, `calls, `unverified, `flawed, `healthy, `sampled, `gated
      ensures (net, reply) == Mining.Ask(old(net))
      ensures calls == old(calls) + [Call(name, store.cell, old(unverified), old(Prepared(name)), old(net), net)]
      ensures unverified == old(unverified) + {name}
      ensures flawed == (old(flawed) || !(reply.Done? && ReplyPreserves(g, name, core, changes)))
    {
      var network := new Mining.Network(net);
      reply := network.Call();
      calls := calls + [Call(name, store.cell, unverified, Prepared(name), net, network.state)];
      unverified := unverified + {name};
      healthy, sampled, gated := false, None, false;
      net := network.state;
      core, changes :| true;
      Note(reply.Done? && ReplyPreserves(g, name, core, changes));
    }

    /** The rollout was staged and the evidence found, and the fleet verified
      * since anything was changed, unless the run resumed with this node. */
    ghost predicate Prepared(name: string)
      reads this
    {
      staged && vetted && (gated || pending == name)
    }

    /** A fleet-wide verification against the stored record: every target healthy
      * over two samples, and preservation evidence with no node excused. */
    ghost method MarkVerified(p: DeploymentPlan)
      requires Evident(store.cell.stored) && store.cell.unlanded == []
      requires healthy && sampled.Some? && EvidenceHolds(p.targets, p.protocol, store.cell.stored, sampled.value, "")
      modifies `unverified, `healthy, `sampled, `gated
      ensures unverified == {} && gated
    {
      unverified, healthy, sampled, gated := {}, false, None, true;
    }

    /** Preservation evidence for the stored record, excusing its pending node. */
    ghost method Vet(p: DeploymentPlan)
      requires Evident(store.cell.stored) && store.cell.unlanded == [] && store.cell.stored.upgrade.Some?
      requires sampled.Some?
      requires EvidenceHolds(p.targets, p.protocol, store.cell.stored, sampled.value, store.cell.stored.upgrade.value.currentNode)
      modifies `sampled, `vetted
      ensures vetted
    {
      sampled, vetted := None, true;
    }
  }

  /** The sidecar services that can be pinned. */
  predicate Requestable(requested: map<nat, string>) {
    forall s :: s in requested ==> s < 3
  }

  predicate Evident(x: Record) {
    x.deployment.Some? && (x.upgrade.Some? ==> x.runtime.Some?)
  }

  lemma NothingStagedIsValid(targets: seq<Target>)
    ensures Staged(targets, map n | n in Names(targets) :: []) && StagedValid(targets, map n | n in Names(targets) :: [])
  {
    forall t | t in targets ensures t.name in Names(targets) {
    }
  }

  /** A run of this rollout may start from this record, or resume it. */
  predicate Enterable(p: DeploymentPlan, x: Record, u: RolloutPlan) {
    && x.deployment.Some? && x.deployment.value.planId == p.id && x.deployment.value.ready
    && if x.upgrade.Some? && x.upgrade.value.planId == u.id then
         Follows(x, u) && x.upgrade.value.previousId == u.previousId
       else
         MayBegin(p, x, u)
  }

  /** A release that requests no sidecar image cannot be staged while the fleet
    * runs some: an empty list of pins reads as an absent one. */
  predicate Stageable(x: Record, requested: map<nat, string>)
    requires x.deployment.Some?
  {
    requested != map[] || EffectiveSidecars(x) == []
  }

  predicate Confirms(x: Record, u: RolloutPlan) {
    x.upgrade.Some? && x.upgrade.value.planId == u.id && x.upgrade.value.phase == Complete
  }

  /** The records a run in which nothing goes wrong completes. */
  predicate Admissible(p: DeploymentPlan, x: Record, u: RolloutPlan, requested: map<nat, string>) {
    Enterable(p, x, u) && (u.scope == CoreImage || Confirms(x, u) || Stageable(x, requested))
  }

  /** This rollout was not begun in the record. */
  predicate Fresh(x: Record, u: RolloutPlan) {
    x.upgrade.Some? ==> x.upgrade.value.planId != u.id
  }

  predicate ResumesWith(pending: string, x: Record) {
    x.upgrade.Some? ==> pending == x.upgrade.value.currentNode
  }

  /** The fleet shows what a new rollout may take its baseline from. */
  ghost predicate Grounded(p: DeploymentPlan, x: Record, observed: Observation) {
    x.deployment.Some? && EvidenceHolds(p.targets, p.protocol, x.(upgrade := None), observed, "")
  }

  /** The baseline is what was observed. */
  ghost predicate IsBaseline(p: DeploymentPlan, x: Record, observed: Observation, baseline: map<string, Preservation>)
    requires x.deployment.Some?
  {
    && WellFormed(observed) && baseline.Keys == Names(p.targets)
    && forall t :: t in p.targets ==>
         NodeEvidence(p.targets, p.protocol, x.(upgrade := None), observed, "", t) == Some(baseline[t.name])
  }

  /** A rollout that may begin, but whose release cannot be staged. */
  ghost predicate Unstageable(p: DeploymentPlan, x: Record, u: RolloutPlan, requested: map<nat, string>, observed: Observation) {
    && Enterable(p, x, u) && Fresh(x, u) && u.scope != CoreImage
    && Requestable(requested) && !Stageable(x, requested) && Grounded(p, x, observed)
  }

  /** A staged list the validator refuses was written into the record. */
  ghost predicate BadChanges(x: Record) {
    x.upgrade.Some? && exists n :: n in x.upgrade.value.changes && !ValidChanges(x.upgrade.value.changes[n])
  }

  lemma BadIsInvalid(targets: seq<Target>, x: Record)
    requires BadChanges(x)
    ensures !ValidUpgrade(targets, x) && !Sound(targets, x)
  {
  }

  class Execution {
    const p: DeploymentPlan
    const store: Store<Record>
    const hosts: Hosts
    var r: Record
    var changed: bool
    ghost var start: Record   // the record this run acquired

    constructor (p: DeploymentPlan, hosts: Hosts)
      ensures this.p == p && this.store == hosts.store && this.hosts == hosts
    {
      this.p, this.store, this.hosts := p, hosts.store, hosts;
      r := Record(None, None, None);
      changed := false;
      start := Record(None, None, None);
    }

    /** What holds between any two steps of any run. */
    ghost predicate Always()
      reads store, hosts`unverified
    {
      && store == hosts.store && Safe(p, store.cell, hosts.unverified)
      && forall i :: 0 <= i < |store.attempts| ==> ValidUpgrade(p.targets, store.attempts[i])
    }

    /** Nothing fails. */
    predicate Calm() {
      hosts.calm && store.calm && WellFormed(hosts.shown)
    }

    /** These samples are evidence for the record in hand. */
    ghost predicate Shows(observed: Observation)
      reads this`r
    {
      && r.deployment.Some? && r.runtime.Some? && r.upgrade.Some?
      && EvidenceHolds(p.targets, p.protocol, r, observed, r.upgrade.value.currentNode)
    }

    lemma OwnStore()
      requires Savable()
      ensures store == hosts.store
    {
    }

    /** The record in hand is stored, and nothing else may come to be. */
    ghost predicate Stored()
      reads this`r, store
    {
      store.cell == Cell(r, [])
    }

    /** The record in hand may be saved. */
    ghost predicate Savable()
      reads this`r, this`start, store, hosts`unverified
    {
      && Always() && Good(p, r, hosts.unverified) && AllBehind(store.cell, r)
      && Ahead(start, r) && AllAhead(start, store.cell)
    }

    /** The record in hand may not be saved, and will not be. */
    ghost predicate Refused()
      reads this`r, this`start, store, hosts
    {
      Always() && AllAhead(start, store.cell) && BadChanges(r) && hosts.flawed
    }

    /** A record the validator refuses is not sent. */
    method Save() returns (reply: Reply)
      requires UniqueNames(p.targets) && (Savable() || Refused())
      modifies store, hosts`flawed
      ensures old(Savable()) ==> Savable() && hosts.flawed == (old(hosts.flawed) || !reply.Done?)
      ensures old(Refused()) ==> Refused() && reply.Failed? && store.cell == old(store.cell)
      ensures reply.Done? ==> Stored()
      ensures old(Savable()) && store.calm ==> reply.Done?
    {
      hide Sound, ValidUpgrade, UniqueNames;
      var valid := ValidateUpgrade(p.targets, r);
      if BadChanges(r) {
        BadIsInvalid(p.targets, r);
      } else {
        SoundIsValid(p.targets, r);
      }
      if !valid {
        return Failed;
      }
      reply := Send();
    }

    method Send() returns (reply: Reply)
      requires Savable() && ValidUpgrade(p.targets, r)
      modifies store, hosts`flawed
      ensures Savable()
      ensures reply.Done? ==> Stored()
      ensures hosts.flawed == (old(hosts.flawed) || !reply.Done?) && (store.calm ==> reply.Done?)
    {
      hide Good, ValidUpgrade, Safe, AllBehind, AllAhead, Ahead;
      ghost var before := store.cell;
      reply := store.Save(r);
      hosts.Note(reply.Done?);
      ghost var n: nat :| n <= |before.unlanded| + 1 && store.cell == before.Attempted(r).Landed(n);
      SaveKeepsSafe(p, before, hosts.unverified, r, n);
      SaveKeepsAhead(start, before, r, n);
    }

    /** Waits, a bounded number of polls, for a healthy fleet; then the
      * preservation evidence must hold. */
    method VerifyUpgrade() returns (reply: Reply, at: nat)
      requires Savable() && Stored() && r.upgrade.Some? && r.runtime.Some? && r.deployment.Some? && UniqueNames(p.targets)
      modifies hosts`unverified, hosts`flawed, hosts`healthy, hosts`sampled, hosts`gated
      ensures Savable()
      ensures reply.Done? ==> hosts.unverified == {} && hosts.gated && at != 0
      ensures !reply.Done? ==> hosts.unverified == old(hosts.unverified) && hosts.gated == old(hosts.gated)
      ensures hosts.flawed == (old(hosts.flawed) || !reply.Done?)
    {
      hide Sound, EvidenceHolds, UniqueNames;
      at := 0;
      var polls: nat :| polls > 0;
      while polls > 0
        invariant Savable() && hosts.unverified == old(hosts.unverified) && hosts.gated == old(hosts.gated)
        invariant hosts.flawed == (old(hosts.flawed) || polls == 0)
      {
        var well;
        reply, well := hosts.Doctor(polls == 1);
        if !reply.Done? {
          return;
        }
        if well {
          var observed := hosts.Sample(p, r, "");
          var evidence := CollectEvidence(p.targets, p.protocol, r, observed, "");
          if evidence.None? {
            return Failed, at;
          }
          hosts.MarkVerified(p);
          var now: nat :| true;
          return Done, now + 1;
        }
        polls := polls - 1;
      }
      reply := Failed;
    }

    /** Resolves each sidecar image the release requests, keeping pins already
      * resolved for the same request. */
    method PinSidecars(current: seq<Sidecar>, requested: map<nat, string>) returns (reply: Reply, pins: seq<Sidecar>)
      requires ValidSidecars(current) && forall s :: s in requested ==> s < 3
      modifies hosts`flawed
      ensures reply.Done? ==> Answers(pins, requested)
      ensures reply.Done? && Answers(current, requested) ==> pins == current
      ensures hosts.flawed == (old(hosts.flawed) || !reply.Done?) && (hosts.calm ==> reply.Done?)
    {
      hide Answers, AnswersBelow, PinsFrom, Hex64, AllHex;
      pins := [];
      var ok := true;
      NoPins(requested, current);
      for s: nat := 0 to 3
        invariant AnswersBelow(pins, requested, s) && (ok <==> AllHex(pins))
        invariant Answers(current, requested) ==> PinsFrom(pins, current, s)
        invariant hosts.flawed == (old(hosts.flawed) || !ok) && (hosts.calm ==> ok)
      {
        if s in requested {
          var image: Sidecar;
          if j: nat :| j < |current| && current[j].service == s && current[j].requested == requested[s] {
            image := current[j];
            if Answers(current, requested) {
              PinKnown(pins, current, requested, s, j);
            }
          } else {
            if Answers(current, requested) {
              ghost var j := PinExists(current, requested, s);
            }
            var pin;
            reply, pin := hosts.Resolve(requested[s]);
            if !reply.Done? {
              return;
            }
            image := Sidecar(s, requested[s], pin);
          }
          PinAdded(pins, requested, s, image);
          HexAdded(pins, image);
          ok := ok && Hex64(image.pinned.digest);
          pins := pins + [image];
        } else {
          PinSkipped(pins, requested, s, current);
        }
      }
      AllAnswered(pins, requested, current);
      ok := ValidateSidecars(pins);
      reply := if ok then Done else Failed;
    }

    /** Stages a Platform rollout: every validator renders the target release;
      * new sidecar images are pinned once and staged again; the services each
      * untouched validator will recreate are journaled once. */
    method StagePlatform(u: RolloutPlan) returns (reply: Reply)
      requires Savable() && Follows(r, u) && u.scope != CoreImage && UniqueNames(p.targets)
      modifies this`r, store, hosts`flawed, hosts`staged
      ensures (Savable() || Refused()) && Follows(r, u) && (reply.Done? ==> Savable() && Stored() && hosts.staged)
      ensures r.upgrade.value.currentNode == old(r.upgrade.value.currentNode)
      ensures r.upgrade.value.completed == old(r.upgrade.value.completed)
      ensures old(hosts.flawed) ==> hosts.flawed
      ensures !hosts.flawed ==> (reply.Done? <==> Stageable(old(r), hosts.Requested(u)))
      ensures Calm() && Requestable(hosts.Requested(u)) ==> hosts.flawed == old(hosts.flawed)
      ensures Calm() && Requestable(hosts.Requested(u)) && !Stageable(old(r), hosts.Requested(u)) ==> reply.Failed?
    {
      hide Sound, Safe, AllBehind, AllAhead, Ahead, Refused, UniqueNames, Staged, StagedValid, Answers, ValidSidecars;
      var pass := 0;
      while true
        invariant pass <= 1 && Savable() && Follows(r, u)
        invariant r.upgrade.value.currentNode == old(r.upgrade.value.currentNode)
        invariant r.upgrade.value.completed == old(r.upgrade.value.completed)
        invariant r.runtime == old(r.runtime) && r.deployment == old(r.deployment)
        invariant old(hosts.flawed) ==> hosts.flawed
        invariant Calm() && Requestable(hosts.Requested(u)) ==> hosts.flawed == old(hosts.flawed)
        invariant pass == 1 && (!hosts.flawed || (hosts.calm && Requestable(hosts.Requested(u)))) ==>
          Answers(r.upgrade.value.sidecars, hosts.Requested(u))
        decreases 1 - pass
      {
        var requested, staged;
        reply, requested, staged := hosts.StageNodes(p, u);
        if !reply.Done? {
          return;
        }
        var current := CurrentSidecars(r);
        CurrentIsValid(p, r, hosts.unverified);
        var pins;
        reply, pins := PinSidecars(current, requested);
        if !reply.Done? {
          return;
        }
        AnswersNothing(pins, requested);
        if pass == 1 && (!hosts.flawed || (hosts.calm && Requestable(hosts.Requested(u)))) {
          AnswersNothing(r.upgrade.value.sidecars, requested);
        }
        if pins != current {
          if pass > 0 {
            return Failed;
          }
          reply := Repin(u, pins);
          if !reply.Done? {
            return;
          }
          pass := pass + 1;
          continue;
        }
        StagedNewly(p.targets, r.upgrade.value, staged);
        reply := JournalChanges(u, staged);
        return;
      }
    }

    method Repin(u: RolloutPlan, pins: seq<Sidecar>) returns (reply: Reply)
      requires UniqueNames(p.targets) && Savable() && Follows(r, u) && ValidSidecars(pins)
      modifies this`r, store, hosts`flawed
      ensures Savable() && Follows(r, u) && r.runtime == old(r.runtime) && r.deployment == old(r.deployment)
      ensures r.upgrade.value == old(r.upgrade.value).(sidecars := pins)
      ensures hosts.flawed == (old(hosts.flawed) || !reply.Done?) && (store.calm ==> reply.Done?)
    {
      hide Sound, UniqueNames, ValidSidecars;
      var g' := r.upgrade.value.(sidecars := pins);
      TweakIsSound(p.targets, r, g');
      reply := Advance(u, WithProgress(r, g'));
    }

    /** Journals, once per validator not yet reached, the services it will
      * recreate. The record so made can be saved if and only if each of these
      * lists names distinct Platform services. */
    method JournalChanges(u: RolloutPlan, staged: map<string, seq<Service>>) returns (reply: Reply)
      requires UniqueNames(p.targets) && Savable() && Follows(r, u) && u.scope != CoreImage
      requires Staged(p.targets, staged) && (StagedValid(p.targets, staged) || hosts.flawed)
      modifies this`r, store, hosts`flawed
      ensures Follows(r, u)
      ensures NewlyValid(p.targets, old(r.upgrade.value), staged) ==>
        Savable() && (reply.Done? ==> Stored()) && (store.calm ==> reply.Done?)
        && hosts.flawed == (old(hosts.flawed) || !reply.Done?)
      ensures !NewlyValid(p.targets, old(r.upgrade.value), staged) ==>
        Refused() && reply.Failed? && store.cell == old(store.cell)
      ensures (old(hosts.flawed) ==> hosts.flawed) && (!hosts.flawed ==> NewlyValid(p.targets, old(r.upgrade.value), staged))
      ensures r.upgrade.value.currentNode == old(r.upgrade.value.currentNode)
      ensures r.upgrade.value.completed == old(r.upgrade.value.completed)
      ensures forall n :: n in old(r.upgrade.value.changes) ==>
        n in r.upgrade.value.changes && r.upgrade.value.changes[n] == old(r.upgrade.value.changes[n])
    {
      hide Sound, UniqueNames, StagedValid, NewlyValid, ValidChanges, ValidSidecars, Staged;
      var g := r.upgrade.value;
      ChangesOfSound(p.targets, r);
      StagedNewly(p.targets, g, staged);
      var changes := StagedChanges(p.targets, g, staged);
      var g' := g.(changes := changes);
      ghost var valid := NewlyValid(p.targets, g, staged);
      if valid {
        TweakIsSound(p.targets, r, g');
        AheadStep(store.cell, r, WithProgress(r, g'));
      }
      r := WithProgress(r, g');
      reply := Save();
    }

    /** Checks a new rollout against the network and takes its baseline; a
      * completed rollout before it is history. */
    method PrepareRollout(u: RolloutPlan) returns (reply: Reply, baseline: map<string, Preservation>)
      requires UniqueNames(p.targets) && r.deployment.Some?
      modifies hosts`flawed, hosts`healthy, hosts`sampled
      ensures reply.Done? ==> MayBegin(p, r, u)
      ensures reply.Done? ==> hosts.healthy && hosts.sampled.Some? && IsBaseline(p, r, hosts.sampled.value, baseline)
      ensures old(hosts.flawed) ==> hosts.flawed
      ensures !hosts.flawed ==> (reply.Done? <==> MayBegin(p, r, u))
      ensures Calm() && MayBegin(p, r, u) && Grounded(p, r, hosts.shown) ==>
        reply.Done? && hosts.sampled == Some(hosts.shown) && hosts.flawed == old(hosts.flawed)
    {
      hide UniqueNames, MayBegin, EvidenceHolds, ValidBaseline, WellFormed;
      baseline := map[];
      if !MayBegin(p, r, u) {
        return Failed, baseline;
      }
      var well;
      reply, well := hosts.Doctor(true);
      if reply.Done? && !well {
        reply := Failed;
      }
      if !reply.Done? {
        return;
      }
      var bare := r.(upgrade := None);
      var observed := hosts.Sample(p, bare, "");
      var evidence := CollectEvidence(p.targets, p.protocol, bare, observed, "");
      if evidence.None? {
        return Failed, baseline;
      }
      baseline := evidence.value;
    }

    /** The fleet runs the sidecar pins of that record. */
    predicate KeepsSidecars(x: Record)
      reads this`r
    {
      x.deployment.Some? && r.deployment == x.deployment && EffectiveSidecars(r) == EffectiveSidecars(x)
    }

    /** The rollout was just begun. */
    ghost predicate Opened(u: RolloutPlan)
      reads this`r
    {
      Follows(r, u) && r.upgrade.value.phase == Staging && r.upgrade.value.currentNode == ""
    }

    /** Starts a rollout on a ready deployment whose previous rollout, if any, is
      * complete: checks the source, takes the baseline, saves the intent. */
    method Begin(u: RolloutPlan) returns (reply: Reply)
      requires Reviewed(p, u) && Savable() && Stored() && start == r
      requires r.deployment.Some? && r.deployment.value.planId == p.id && !changed
      requires r.upgrade.Some? ==> r.upgrade.value.planId != u.id
      modifies this`r, this`changed, store, hosts`flawed, hosts`healthy, hosts`sampled
      ensures Savable() && (changed ==> Opened(u))
      ensures !changed ==> store.cell == old(store.cell) && r == old(r)
      ensures reply.Done? ==> changed && Stored()
      ensures KeepsSidecars(old(r))
      ensures old(hosts.flawed) ==> hosts.flawed
      ensures !hosts.flawed ==> (reply.Done? <==> MayBegin(p, start, u))
      ensures Calm() && MayBegin(p, start, u) && Grounded(p, start, hosts.shown) ==>
        reply.Done? && hosts.flawed == old(hosts.flawed)
        && Shows(hosts.shown)
    {
      hide Sound, Reviewed, Savable, UniqueNames, IsBaseline, Shows, Grounded, WellFormed;
      ReviewedProfile(p, u);
      var baseline;
      reply, baseline := PrepareRollout(u);
      if reply.Done? {
        reply := Adopt(u, hosts.sampled.value, baseline);
      }
    }

    method Adopt(u: RolloutPlan, ghost observed: Observation, baseline: map<string, Preservation>) returns (reply: Reply)
      requires Reviewed(p, u) && Savable() && Stored() && start == r
      requires r.deployment.Some? && r.deployment.value.planId == p.id
      requires r.upgrade.Some? ==> r.upgrade.value.phase == Complete && r.upgrade.value.planId != u.id
      requires hosts.healthy && hosts.sampled == Some(observed) && IsBaseline(p, r, observed, baseline)
      modifies this`r, this`changed, store, hosts`flawed
      ensures Savable() && changed && Opened(u)
      ensures KeepsSidecars(old(r))
      ensures reply.Done? ==> Stored()
      ensures hosts.flawed == (old(hosts.flawed) || !reply.Done?) && (store.calm ==> reply.Done?)
      ensures Shows(observed)
    {
      hide Sound, Reviewed, UniqueNames, EvidenceHolds;
      ReviewedProfile(p, u);
      BaselineIsValid(p, r, observed, baseline);
      BegunIsGood(p, u, r, baseline, hosts.unverified);
      BehindBegun(store.cell, r, Begun(r, p, u, baseline));
      BaselineStillHolds(p, u, r, observed, baseline);
      r := Begun(r, p, u, baseline);
      changed := true;
      reply := Save();
    }

    /** Saves a later record of the same rollout. */
    method Advance(u: RolloutPlan, next: Record) returns (reply: Reply)
      requires UniqueNames(p.targets) && Savable() && Follows(r, u) && Follows(next, u)
      requires Ahead(r, next) && Good(p, next, hosts.unverified)
      modifies this`r, store, hosts`flawed
      ensures Savable() && r == next
      ensures reply.Done? ==> Stored()
      ensures hosts.flawed == (old(hosts.flawed) || !reply.Done?) && (store.calm ==> reply.Done?)
    {
      hide Sound, UniqueNames, Remaining;
      AheadStep(store.cell, r, next);
      r := next;
      reply := Save();
    }

    /** Commits the intent. */
    method CommitIntent(u: RolloutPlan, t: Target) returns (reply: Reply)
      requires UniqueNames(p.targets) && Savable() && Follows(r, u)
      requires t in p.targets && Tracked(r.upgrade.value.scope, t) && !IsDone(r.upgrade.value, t.name)
      requires r.upgrade.value.currentNode == "" || r.upgrade.value.currentNode == t.name
      modifies this`r, store, hosts`flawed
      ensures Savable() && Follows(r, u) && t.name != "" && hosts.unverified <= {t.name}
      ensures r.upgrade.value == old(r.upgrade.value).(phase := Applying, currentNode := t.name)
      ensures reply.Done? ==> Stored()
      ensures hosts.flawed == (old(hosts.flawed) || !reply.Done?)
    {
      hide Sound;
      WithdrawnIsSound(p.targets, r, u, t);
      WithdrawnIsGood(p, r, u, t.name, hosts.unverified);
      reply := Advance(u, Withdrawn(r, u, t.name));
    }

    /** What this run has established stays established. */
    twostate predicate SameRun()
      reads hosts
    {
      hosts.staged == old(hosts.staged) && hosts.vetted == old(hosts.vetted) && hosts.pending == old(hosts.pending)
    }

    /** Commits the intent, then touches the node; a validator's Core behind a
      * pause of the miner. */
    method Touch(u: RolloutPlan, t: Target) returns (reply: Reply)
      requires UniqueNames(p.targets) && Savable() && Follows(r, u)
      requires t in p.targets && Tracked(r.upgrade.value.scope, t) && !IsDone(r.upgrade.value, t.name)
      requires r.upgrade.value.currentNode == "" || r.upgrade.value.currentNode == t.name
      requires hosts.Prepared(t.name)
      modifies this`r, store, hosts
      ensures Savable() && Follows(r, u) && t.name != ""
      ensures r.upgrade.value == old(r.upgrade.value).(phase := Applying, currentNode := t.name)
      ensures old(r.upgrade.value.currentNode) == "" ==> Remaining(r.upgrade.value) == old(Remaining(r.upgrade.value)) - 1
      ensures OneMoreCall(p, u, old(hosts.calls), hosts.calls) || (hosts.calls == old(hosts.calls) && !reply.Done?)
      ensures SameRun() && MinerKept(old(hosts.net), reply, hosts.net)
      ensures hosts.flawed == (old(hosts.flawed) || !reply.Done?)
    {
      hide Sound, UniqueNames, Reviewed, MinerRuns, MinerKept;
      ValidatorByName(p.targets, t);
      MinerUntouched(hosts.net);
      reply := CommitIntent(u, t);
      if !reply.Done? {
        return;
      }
      var paused := u.scope == CoreImage && t.role == Validator;
      if paused {
        MinerPaused(hosts.net);
        ghost var before := hosts.net;
        reply := hosts.PauseMining();
        if !reply.Done? {
          return;
        }
        Mining.PauseEndsQuiet(before);
      }
      reply := Replace(u, t, paused, old(hosts.net));
    }

    /** Sends the request and checks the node's reply. */
    method Replace(u: RolloutPlan, t: Target, paused: bool, ghost first: Mining.State) returns (reply: Reply)
      requires Savable() && Follows(r, u) && Stored() && t.name != "" && hosts.unverified <= {t.name}
      requires r.upgrade.value.currentNode == t.name && !IsDone(r.upgrade.value, t.name)
      requires u.scope == CoreImage && IsValidator(p.targets, t.name) ==> paused
      requires hosts.Prepared(t.name)
      requires paused ==> !hosts.net.mining && Mining.QuietDkg(hosts.net.height)
      requires if paused then MinerRuns(first) ==> Mining.Accounted(hosts.net) else hosts.net == first
      modifies hosts
      ensures Savable() && OneMoreCall(p, u, old(hosts.calls), hosts.calls) && SameRun() && MinerKept(first, reply, hosts.net)
      ensures hosts.flawed == (old(hosts.flawed) || !reply.Done?)
    {
      hide Sound, IsValidator, ReplyPreserves, MinerRuns, MinerKept;
      var core, changes;
      reply, core, changes := hosts.Apply(r.upgrade.value, t.name);
      ghost var c := Call(t.name, store.cell, old(hosts.unverified), true, old(hosts.net), hosts.net);
      assert CallAllowed(p, u, c);
      var answered := reply;
      MinerAsked(first, Done);
      MinerAsked(first, Failed);
      MinerAsked(first, Killed);
      if paused {
        MinerResumed(first, hosts.net, answered);
        reply := hosts.ResumeMining(answered);
      }
      if reply.Done? && !ReplyPreserves(r.upgrade.value, t.name, core, changes) {
        reply := Failed;
      }
    }

    /** Verifies the whole fleet and commits the current node's completion. */
    method Confirm(u: RolloutPlan) returns (reply: Reply, at: nat)
      requires UniqueNames(p.targets) && Savable() && Follows(r, u)
      requires r.upgrade.value.currentNode != "" && r.upgrade.value.phase == Applying
      modifies this`r, store, hosts`unverified, hosts`flawed, hosts`healthy, hosts`sampled, hosts`gated
      ensures Savable() && Follows(r, u)
      ensures r.upgrade.value.completed == old(r.upgrade.value.completed)
        || r.upgrade.value.completed == old(r.upgrade.value.completed)[old(r.upgrade.value.currentNode) := true]
      ensures reply.Done? ==>
        r.upgrade.value.completed == old(r.upgrade.value.completed)[old(r.upgrade.value.currentNode) := true]
      ensures reply.Done? ==> Remaining(r.upgrade.value) == old(Remaining(r.upgrade.value)) - 1
      ensures reply.Done? ==> r.upgrade.value.currentNode == "" && hosts.unverified == {} && hosts.gated && at != 0
      ensures reply.Done? ==> Stored()
      ensures hosts.flawed == (old(hosts.flawed) || !reply.Done?)
    {
      hide Sound;
      at := 0;
      PhaseIsSound(p.targets, r, Verifying);
      reply := Advance(u, InPhase(r, Verifying));
      if !reply.Done? {
        return;
      }
      reply, at := VerifyUpgrade();
      if !reply.Done? {
        return;
      }
      CompletedIsSound(p.targets, r, u);
      reply := Advance(u, Completed(r, r.upgrade.value.currentNode));
    }

    /** One node: withdrawn, touched, verified with the fleet, completed. */
    method ReplaceOne(u: RolloutPlan, t: Target) returns (reply: Reply, at: nat)
      requires UniqueNames(p.targets) && Savable() && Follows(r, u)
      requires t in p.targets && Tracked(r.upgrade.value.scope, t) && !IsDone(r.upgrade.value, t.name)
      requires r.upgrade.value.currentNode == "" || r.upgrade.value.currentNode == t.name
      requires hosts.Prepared(t.name)
      modifies this`r, store, hosts
      ensures Savable() && Follows(r, u)
      ensures t.name in old(r.upgrade.value.completed) && !old(r.upgrade.value.completed)[t.name]
      ensures OneMoreCall(p, u, old(hosts.calls), hosts.calls) || (hosts.calls == old(hosts.calls) && !reply.Done?)
      ensures r.upgrade.value.completed == old(r.upgrade.value.completed)
        || r.upgrade.value.completed == old(r.upgrade.value.completed)[t.name := true]
      ensures reply.Done? ==> r.upgrade.value.completed == old(r.upgrade.value.completed)[t.name := true]
      ensures reply.Done? ==> Remaining(r.upgrade.value) < old(Remaining(r.upgrade.value))
      ensures reply.Done? ==> r.upgrade.value.currentNode == "" && hosts.unverified == {} && hosts.gated && at != 0
      ensures (reply.Done? ==> Stored()) && SameRun() && MinerKept(old(hosts.net), reply, hosts.net)
      ensures !reply.Done? ==> at == 0
      ensures hosts.flawed == (old(hosts.flawed) || !reply.Done?)
    {
      hide Sound, UniqueNames, OneMoreCall, MinerKept;
      at := 0;
      MinerUntouched(hosts.net);
      TrackedIsPending(p.targets, r, t);
      reply := hosts.Ask();
      if !reply.Done? {
        return;
      }
      MinerUntouched(hosts.net);
      reply := Touch(u, t);
      MinerUntouched(hosts.net);
      if !reply.Done? {
        return;
      }
      ghost var after := hosts.net;
      reply, at := Confirm(u);
      MinerKeptOn(old(hosts.net), after, reply, hosts.net);
      if !reply.Done? {
        at := 0;
      }
    }

    /** Replaces every node not yet done, in the given order, starting with the
      * one a previous run left pending; each is touched once. */
    method ReplaceAll(u: RolloutPlan, order: seq<Target>) returns (reply: Reply, at: nat)
      requires UniqueNames(p.targets) && Savable() && Follows(r, u)
      requires forall t :: t in order ==> t in p.targets && Tracked(r.upgrade.value.scope, t)
      requires forall n :: n in r.upgrade.value.completed ==> exists t :: t in order && t.name == n
      requires r.upgrade.value.currentNode != "" ==>
        order != [] && order[0].name == r.upgrade.value.currentNode && !IsDone(r.upgrade.value, order[0].name)
      requires Stored() && hosts.staged && hosts.vetted
      requires if r.upgrade.value.currentNode == "" then hosts.gated else hosts.pending == r.upgrade.value.currentNode
      modifies this`r, store, hosts
      ensures Savable() && Follows(r, u)
      ensures CallsGrow(p, u, old(hosts.calls), hosts.calls)
      ensures |hosts.calls| - |old(hosts.calls)| <= |Pending(old(r.upgrade.value.completed))|
      ensures reply.Done? ==> |hosts.calls| - |old(hosts.calls)| == |Pending(old(r.upgrade.value.completed))|
      ensures (reply.Done? ==> Stored()) && MinerKept(old(hosts.net), reply, hosts.net)
      ensures reply.Done? ==> r.upgrade.value.currentNode == "" && forall t :: t in order ==> IsDone(r.upgrade.value, t.name)
      ensures reply.Done? ==> (at != 0 || hosts.unverified == old(hosts.unverified)) && (at != 0 ==> hosts.unverified == {})
      ensures hosts.flawed == (old(hosts.flawed) || !reply.Done?)
    {
      hide Sound, ValidFrame, Savable, CallAllowed, OneMoreCall, CallsGrow, Pending, UniqueNames, MinerKept;
      NoCalls(p, u, hosts.calls);
      MinerUntouched(hosts.net);
      at := 0;
      reply := Done;
      for i := 0 to |order|
        invariant Savable() && Follows(r, u)
        invariant r.upgrade.value.completed.Keys == old(r.upgrade.value.completed).Keys
        invariant forall j :: 0 <= j < i ==> IsDone(r.upgrade.value, order[j].name)
        invariant r.upgrade.value.currentNode != "" ==>
          i == 0 && order != [] && order[0].name == r.upgrade.value.currentNode && !IsDone(r.upgrade.value, order[0].name)
        invariant CallsGrow(p, u, old(hosts.calls), hosts.calls)
        invariant |hosts.calls| - |old(hosts.calls)| == |Pending(old(r.upgrade.value.completed))| - |Pending(r.upgrade.value.completed)|
        invariant (at != 0 || hosts.unverified == old(hosts.unverified)) && (at != 0 ==> hosts.unverified == {})
        invariant MinerKept(old(hosts.net), Done, hosts.net)
        invariant reply.Done? && hosts.flawed == old(hosts.flawed) && Stored() && hosts.staged && hosts.vetted
        invariant if r.upgrade.value.currentNode == "" then hosts.gated else hosts.pending == r.upgrade.value.currentNode
      {
        var t := order[i];
        if IsDone(r.upgrade.value, t.name) {
          continue;
        }
        assert t in order;
        ghost var completed, calls, net := r.upgrade.value.completed, hosts.calls, hosts.net;
        var last;
        reply, last := ReplaceOne(u, t);
        PendingShrinks(completed, t.name);
        MinerKeptOn(old(hosts.net), net, reply, hosts.net);
        OneMoreGrows(p, u, old(hosts.calls), calls, hosts.calls);
        if !reply.Done? {
          return;
        }
        at := last;
      }
      NothingPending(r.upgrade.value.completed, order);
    }

    /** Commits the completed rollout. */
    method Finish(u: RolloutPlan, at: nat) returns (reply: Reply)
      requires UniqueNames(p.targets) && Savable() && Follows(r, u) && at != 0
      requires r.upgrade.value.currentNode == "" && AllDone(r.upgrade.value)
      modifies this`r, store, hosts`flawed
      ensures Savable() && Follows(r, u)
      ensures reply.Done? ==> Stored() && Converged(r, u)
      ensures hosts.flawed == (old(hosts.flawed) || !reply.Done?)
    {
      FinishedIsSound(p.targets, r, u, at);
      hide Sound, UniqueNames;
      reply := Advance(u, Finished(r, u, at));
    }

    /** Resumes the plan's own rollout, or begins it. */
    method Enter(u: RolloutPlan) returns (reply: Reply)
      requires Reviewed(p, u) && Savable() && Stored() && start == r && !changed
      modifies this`r, this`changed, store, hosts`flawed, hosts`healthy, hosts`sampled
      ensures Savable() && (changed ==> Opened(u))
      ensures !changed ==> store.cell == old(store.cell) && r == old(r)
      ensures reply.Done? ==> Follows(r, u) && Stored() && (changed || (r.upgrade.Some? && r.upgrade.value.planId == u.id))
      ensures changed ==> Fresh(start, u) && KeepsSidecars(start)
      ensures old(hosts.flawed) ==> hosts.flawed
      ensures !hosts.flawed ==> (reply.Done? <==> Enterable(p, start, u))
      ensures Calm() && Fresh(start, u) && Enterable(p, start, u) && Grounded(p, start, hosts.shown) ==>
        reply.Done? && changed && hosts.flawed == old(hosts.flawed)
        && Shows(hosts.shown)
    {
      hide Reviewed, Savable, MayBegin, Grounded, Shows, WellFormed, EffectiveSidecars;
      if r.deployment.None? || r.deployment.value.planId != p.id || !r.deployment.value.ready {
        return Failed;
      }
      reply := hosts.Ask();
      if !reply.Done? {
        return;
      }
      if r.upgrade.Some? && r.upgrade.value.planId == u.id {
        if !Follows(r, u) || r.upgrade.value.previousId != u.previousId {
          reply := Failed;
        }
      } else {
        reply := Begin(u);
      }
    }

    /** Preservation evidence at this moment, excusing the pending node. */
    method EvidenceNow() returns (ok: bool)
      requires UniqueNames(p.targets) && store == hosts.store && Stored()
      requires r.deployment.Some? && r.upgrade.Some? && r.runtime.Some?
      modifies hosts`flawed, hosts`sampled, hosts`vetted
      ensures hosts.flawed == (old(hosts.flawed) || !ok) && (ok ==> hosts.vetted)
      ensures Calm() ==>
        (ok <==> Shows(hosts.shown))
    {
      hide EvidenceHolds, UniqueNames, WellFormed;
      var observed := hosts.Sample(p, r, r.upgrade.value.currentNode);
      var evidence := CollectEvidence(p.targets, p.protocol, r, observed, r.upgrade.value.currentNode);
      ok := evidence.Some?;
      if ok {
        hosts.Vet(p);
      }
    }

    /** Confirms a rollout already completed, without changing anything. */
    method Reconfirm(u: RolloutPlan) returns (reply: Reply)
      requires UniqueNames(p.targets) && Savable() && Stored() && Follows(r, u) && r.upgrade.value.phase == Complete
      modifies hosts`unverified, hosts`flawed, hosts`healthy, hosts`sampled, hosts`gated
      ensures Savable() && Converged(r, u)
      ensures reply.Done? ==> hosts.unverified == {}
      ensures hosts.flawed == (old(hosts.flawed) || !reply.Done?)
    {
      CompleteIsConverged(p.targets, r, u);
      hide Sound, UniqueNames;
      var at;
      reply, at := VerifyUpgrade();
    }

    /** The body of Upgrade, once the claim is held. */
    method Rollout(u: RolloutPlan) returns (reply: Reply)
      requires Reviewed(p, u) && Savable() && Stored() && start == r && !changed
      requires ResumesWith(hosts.pending, r)
      modifies this`r, this`changed, store, hosts
      ensures (Savable() || Refused()) && (changed ==> Follows(r, u)) && (!changed ==> Savable())
      ensures CallsGrow(p, u, old(hosts.calls), hosts.calls)
      ensures MinerKept(old(hosts.net), reply, hosts.net)
      ensures Follows(start, u) ==> |hosts.calls| - |old(hosts.calls)| <= |Pending(start.upgrade.value.completed)|
      ensures Follows(start, u) && reply.Done? ==>
        |hosts.calls| - |old(hosts.calls)| == |Pending(start.upgrade.value.completed)|
      ensures reply.Done? ==> Stored() && Converged(r, u) && hosts.unverified == {}
      ensures old(hosts.flawed) ==> hosts.flawed
      ensures !hosts.flawed ==> (reply.Done? <==> Admissible(p, start, u, hosts.Requested(u)))
      ensures Calm() && Unstageable(p, start, u, hosts.Requested(u), hosts.shown) ==>
        reply.Failed? && hosts.flawed == old(hosts.flawed) && hosts.calls == old(hosts.calls)
    {
      hide Reviewed, UniqueNames, CallAllowed, Sound, Savable, Refused, Enterable, Pending;
      hide Shows, Grounded, WellFormed, EffectiveSidecars, MinerKept;
      MinerUntouched(hosts.net);
      ReviewedProfile(p, u);
      reply := Enter(u);
      if reply.Done? {
        OwnStore();
        var preserved := EvidenceNow();
        if !preserved {
          reply := Failed;
        } else if r.upgrade.value.phase == Complete && !changed {
          reply := Reconfirm(u);
          DonePendsNothing(r.upgrade.value);
        } else {
          changed := true;
          reply := RolloutNodes(u);
        }
      }
    }

    /** Stages the rollout; a fleet with no node pending must be healthy. */
    method Stage(u: RolloutPlan) returns (reply: Reply, at: nat)
      requires Savable() && Stored() && Follows(r, u) && UniqueNames(p.targets)
      modifies this`r, store, hosts`unverified, hosts`flawed, hosts`healthy, hosts`sampled, hosts`gated, hosts`staged
      ensures (Savable() || Refused()) && Follows(r, u) && (reply.Done? ==> Savable() && Stored() && hosts.staged)
      ensures reply.Done? && r.upgrade.value.currentNode == "" ==> hosts.gated
      ensures r.upgrade.value.currentNode == old(r.upgrade.value.currentNode)
      ensures r.upgrade.value.completed == old(r.upgrade.value.completed)
      ensures at != 0 ==> hosts.unverified == {}
      ensures old(hosts.flawed) ==> hosts.flawed
      ensures !hosts.flawed ==> (reply.Done? <==> u.scope == CoreImage || Stageable(old(r), hosts.Requested(u)))
      ensures Calm() && u.scope != CoreImage && Requestable(hosts.Requested(u)) && !Stageable(old(r), hosts.Requested(u)) ==>
        reply.Failed? && hosts.flawed == old(hosts.flawed) && hosts.calls == old(hosts.calls)
    {
      hide Sound, UniqueNames, Refused, Stageable;
      at := 0;
      if u.scope == CoreImage {
        reply := hosts.StageCore();
      } else {
        reply := StagePlatform(u);
      }
      if reply.Done? && r.upgrade.value.currentNode == "" {
        reply, at := VerifyUpgrade();
        if !reply.Done? {
          at := 0;
        }
      }
    }

    /** Staging, the nodes one by one, and the final commit. */
    method RolloutNodes(u: RolloutPlan) returns (reply: Reply)
      requires Reviewed(p, u) && Savable() && Stored() && Follows(r, u) && hosts.vetted
      requires r.upgrade.value.currentNode == "" || hosts.pending == r.upgrade.value.currentNode
      modifies this`r, store, hosts
      ensures (Savable() || Refused()) && Follows(r, u)
      ensures CallsGrow(p, u, old(hosts.calls), hosts.calls)
      ensures MinerKept(old(hosts.net), reply, hosts.net)
      ensures |hosts.calls| - |old(hosts.calls)| <= |Pending(old(r.upgrade.value.completed))|
      ensures reply.Done? ==> |hosts.calls| - |old(hosts.calls)| == |Pending(old(r.upgrade.value.completed))|
      ensures reply.Done? ==> Stored() && Converged(r, u) && hosts.unverified == {}
      ensures old(hosts.flawed) ==> hosts.flawed
      ensures !hosts.flawed ==> (reply.Done? <==> u.scope == CoreImage || Stageable(old(r), hosts.Requested(u)))
      ensures Calm() && u.scope != CoreImage && Requestable(hosts.Requested(u)) && !Stageable(old(r), hosts.Requested(u)) ==>
        reply.Failed? && hosts.flawed == old(hosts.flawed) && hosts.calls == old(hosts.calls)
    {
      hide Sound, Reviewed, UniqueNames, DevnetProfile, CallAllowed, Refused, Stageable, Pending, MinerKept;
      MinerUntouched(hosts.net);
      ReviewedProfile(p, u);
      var at, last;
      reply, at := Stage(u);
      if !reply.Done? {
        return;
      }
      var order := WithdrawalOrder(u);
      reply, last := ReplaceAll(u, order);
      if !reply.Done? {
        return;
      }
      ghost var net := hosts.net;
      AllOrderedDone(p.targets, r, order);
      reply := Conclude(u, if last != 0 then last else at);
      MinerUntouched(net);
      MinerKeptOn(old(hosts.net), net, reply, hosts.net);
    }

    /** The final commit, after a verification in this run. */
    method Conclude(u: RolloutPlan, seen: nat) returns (reply: Reply)
      requires UniqueNames(p.targets) && Savable() && Stored() && Follows(r, u)
      requires r.upgrade.value.currentNode == "" && AllDone(r.upgrade.value)
      requires seen != 0 ==> hosts.unverified == {}
      modifies this`r, store, hosts`unverified, hosts`flawed, hosts`healthy, hosts`sampled, hosts`gated
      ensures Savable() && Follows(r, u)
      ensures reply.Done? ==> Stored() && Converged(r, u) && hosts.unverified == {}
      ensures hosts.flawed == (old(hosts.flawed) || !reply.Done?)
    {
      hide Sound, UniqueNames;
      var at := seen;
      if at == 0 {
        reply, at := VerifyUpgrade();
        if !reply.Done? {
          return;
        }
      }
      reply := Finish(u, at);
    }

    /** The withdrawal order of this run: a pending node first. */
    method WithdrawalOrder(u: RolloutPlan) returns (order: seq<Target>)
      requires DevnetProfile(p.targets) && Sound(p.targets, r) && Follows(r, u)
      ensures forall t :: t in order <==> t in p.targets && Tracked(r.upgrade.value.scope, t)
      ensures forall n :: n in r.upgrade.value.completed ==> exists t :: t in order && t.name == n
      ensures r.upgrade.value.currentNode != "" ==>
        order != [] && order[0].name == r.upgrade.value.currentNode && !IsDone(r.upgrade.value, order[0].name)
    {
      var scope, current := r.upgrade.value.scope, r.upgrade.value.currentNode;
      order := UpgradeOrder(p.targets, scope);
      OrderVisitsTracked(p.targets, scope);
      if current != "" {
        ResumeVisitsPendingFirst(order, current);
        assert current in TrackedNames(p.targets, scope);
        order := ResumeOrder(order, current);
      }
      assert r.upgrade.value.completed.Keys == TrackedNames(p.targets, scope);
    }

    /** One run of a rolling upgrade, from the claim to its release. The process
      * may die at any call; a run that fails after it changed the record saves
      * the interruption. The next successful claim settles what is outstanding.
      * A run in which nothing goes wrong completes exactly when it may enter and
      * the release can be staged; a resumed one touches every node left once. */
    method Upgrade(u: RolloutPlan) returns (reply: Reply)
      requires Reviewed(p, u) && Always()
      modifies this`r, this`changed, this`start, store, hosts
      ensures Always()
      ensures CallsGrow(p, u, old(hosts.calls), hosts.calls)
      ensures MinerKept(old(hosts.net), reply, hosts.net)
      ensures exists y :: (y == start && y in old(store.cell).Chain()) && AllAhead(y, store.cell)
      ensures reply.Done? ==> store.cell.unlanded == [] && Converged(store.cell.stored, u) && hosts.unverified == {}
      ensures !hosts.flawed ==> (reply.Done? <==> Admissible(p, start, u, hosts.Requested(u)))
      ensures Calm() && Unstageable(p, start, u, hosts.Requested(u), hosts.shown) ==>
        reply.Failed? && !hosts.flawed && hosts.calls == old(hosts.calls)
      ensures Follows(start, u) ==> |hosts.calls| - |old(hosts.calls)| <= |Pending(start.upgrade.value.completed)|
      ensures Follows(start, u) && reply.Done? ==>
        |hosts.calls| - |old(hosts.calls)| == |Pending(start.upgrade.value.completed)|
    {
      hide Reviewed, CallAllowed, Converged, Sound, Admissible, Pending, BadChanges, Unstageable, WellFormed, MinerKept;
      MinerUntouched(hosts.net);
      changed := false;
      r := store.Acquire();
      start := r;
      hosts.BeginRun();
      AcquiredIsSavable(p, old(store.cell), store.cell, hosts.unverified);
      reply := Rollout(u);
      if reply.Failed? && changed {
        ReviewedProfile(p, u);
        var saved := Interrupt(u);
        if saved.Killed? {
          MinerOutlivesRun(old(hosts.net), hosts.net);
          reply := Killed;
        }
      }
    }

    /** The record of an interruption, if it may be saved. */
    method Interrupt(u: RolloutPlan) returns (saved: Reply)
      requires UniqueNames(p.targets) && (Savable() || Refused()) && Follows(r, u)
      modifies this`r, store, hosts`flawed
      ensures Always() && AllAhead(start, store.cell) && (old(hosts.flawed) ==> hosts.flawed)
      ensures hosts.flawed || saved.Done?
      ensures old(Savable()) && store.calm ==> saved.Done? && hosts.flawed == old(hosts.flawed)
      ensures old(Refused()) ==> hosts.flawed
    {
      hide Sound, UniqueNames;
      var next := InPhase(r, Interrupted);
      if Savable() {
        PhaseIsSound(p.targets, r, Interrupted);
        AheadStep(store.cell, r, next);
      }
      r := next;
      saved := Save();
    }
  }

  ghost predicate OneMoreCall(p: DeploymentPlan, u: RolloutPlan, before: seq<Call>, after: seq<Call>) {
    |after| == |before| + 1 && before <= after && CallAllowed(p, u, after[|before|])
  }

  ghost predicate CallsGrow(p: DeploymentPlan, u: RolloutPlan, before: seq<Call>, after: seq<Call>) {
    before <= after && forall i :: |before| <= i < |after| ==> CallAllowed(p, u, after[i])
  }

  lemma NoCalls(p: DeploymentPlan, u: RolloutPlan, calls: seq<Call>)
    ensures CallsGrow(p, u, calls, calls)
  {
  }

  lemma OneMoreGrows(p: DeploymentPlan, u: RolloutPlan, first: seq<Call>, before: seq<Call>, after: seq<Call>)
    requires CallsGrow(p, u, first, before) && (OneMoreCall(p, u, before, after) || before == after)
    ensures CallsGrow(p, u, first, after) && |after| <= |before| + 1
    ensures OneMoreCall(p, u, before, after) ==> |after| == |before| + 1
  {
    hide CallAllowed;
  }

  lemma TrackedIsPending(targets: seq<Target>, r: Record, t: Target)
    requires Sound(targets, r) && r.upgrade.Some? && t in targets && Tracked(r.upgrade.value.scope, t)
    requires !IsDone(r.upgrade.value, t.name)
    ensures t.name in r.upgrade.value.completed && !r.upgrade.value.completed[t.name]
  {
    assert t.name in TrackedNames(targets, r.upgrade.value.scope);
  }

  lemma NothingPending(completed: map<string, bool>, order: seq<Target>)
    requires forall n :: n in completed ==> exists t :: t in order && t.name == n
    requires forall t :: t in order ==> t.name in completed ==> completed[t.name]
    ensures Pending(completed) == {}
  {
  }

  lemma DonePendsNothing(g: Progress)
    requires AllDone(g)
    ensures Pending(g.completed) == {}
  {
  }

  /** What remains is nothing exactly when every node is done. */
  lemma NothingRemainsIffDone(g: Progress)
    requires g.currentNode == ""
    ensures Remaining(g) == 0 <==> AllDone(g)
  {
    if !AllDone(g) {
      var n :| n in g.completed && !g.completed[n];
      assert n in Pending(g.completed);
    } else {
      assert Pending(g.completed) == {};
    }
  }

  lemma AcquiredIsSavable(p: DeploymentPlan, before: Cell<Record>, after: Cell<Record>, unverified: set<string>)
    requires Safe(p, before, unverified) && after.unlanded == [] && after.stored in before.Chain()
    ensures Safe(p, after, unverified) && Good(p, after.stored, unverified)
    ensures AllBehind(after, after.stored) && AllAhead(after.stored, after) && Ahead(after.stored, after.stored)
  {
    hide Sound;
  }

  lemma ReviewedProfile(p: DeploymentPlan, u: RolloutPlan)
    requires Reviewed(p, u)
    ensures DevnetProfile(p.targets) && UniqueNames(p.targets)
  {
  }

  /** A finished rollout: every tracked node done, every node on its goal. */
  ghost predicate Converged(r: Record, u: RolloutPlan) {
    && Follows(r, u) && r.upgrade.value.phase == Complete && AllDone(r.upgrade.value)
    && r.runtime.value.images == u.goal
  }

  lemma SameImages(targets: seq<Target>, images: FleetImages, goal: FleetImages)
    requires images.Keys == Names(targets) == goal.Keys
    requires forall t :: t in targets ==> images[t.name] == goal[t.name]
    ensures images == goal
  {
    forall n | n in goal ensures images[n] == goal[n] {
      var t :| t in targets && t.name == n;
    }
  }

  lemma CompleteIsConverged(targets: seq<Target>, r: Record, u: RolloutPlan)
    requires Sound(targets, r) && Follows(r, u) && r.upgrade.value.phase == Complete
    ensures Converged(r, u)
  {
    forall t | t in targets
      ensures t.name in u.goal && r.runtime.value.images[t.name] == u.goal[t.name]
    {
      assert TargetSound(r.upgrade.value, r.runtime.value.images, t);
    }
    SameImages(targets, r.runtime.value.images, u.goal);
  }

  lemma AllOrderedDone(targets: seq<Target>, r: Record, order: seq<Target>)
    requires Sound(targets, r) && r.upgrade.Some?
    requires forall t :: t in order <==> t in targets && Tracked(r.upgrade.value.scope, t)
    requires forall t :: t in order ==> IsDone(r.upgrade.value, t.name)
    ensures AllDone(r.upgrade.value)
  {
    forall n | n in r.upgrade.value.completed ensures r.upgrade.value.completed[n] {
      assert n in TrackedNames(targets, r.upgrade.value.scope);
    }
  }

  lemma BaselineIsValid(p: DeploymentPlan, r: Record, observed: Observation, baseline: map<string, Preservation>)
    requires UniqueNames(p.targets) && r.deployment.Some? && IsBaseline(p, r, observed, baseline)
    ensures baseline.Keys == Names(p.targets)
    ensures forall t :: t in p.targets ==> ValidBaseline(t.role, baseline[t.name])
  {
    hide NodeEvidence, ValidBaseline, WellFormed;
    forall t | t in p.targets ensures ValidBaseline(t.role, baseline[t.name]) {
      FreshBaselineIsValid(p.targets, p.protocol, r.(upgrade := None), observed, t);
    }
  }

  /** What the baseline was taken from is evidence for the rollout it begins. */
  lemma BaselineStillHolds(p: DeploymentPlan, u: RolloutPlan, r: Record, observed: Observation,
                           baseline: map<string, Preservation>)
    requires UniqueNames(p.targets) && r.deployment.Some? && IsBaseline(p, r, observed, baseline)
    ensures EvidenceHolds(p.targets, p.protocol, Begun(r, p, u, baseline), observed, "")
  {
    hide WellFormed;
    forall t | t in p.targets
      ensures NodeEvidence(p.targets, p.protocol, Begun(r, p, u, baseline), observed, "", t).Some?
    {
      assert NodeEvidence(p.targets, p.protocol, r.(upgrade := None), observed, "", t) == Some(baseline[t.name]);
      NodeStillHolds(p, u, r, observed, baseline, t);
    }
  }

  lemma NodeStillHolds(p: DeploymentPlan, u: RolloutPlan, r: Record, observed: Observation,
                       baseline: map<string, Preservation>, t: Target)
    requires r.deployment.Some? && t.name != "" && t.name in baseline
    requires NodeEvidence(p.targets, p.protocol, r.(upgrade := None), observed, "", t) == Some(baseline[t.name])
    ensures NodeEvidence(p.targets, p.protocol, Begun(r, p, u, baseline), observed, "", t).Some?
  {
    hide LiveQuorum;
  }

  lemma BegunIsGood(p: DeploymentPlan, u: RolloutPlan, r: Record, baseline: map<string, Preservation>, unverified: set<string>)
    requires Reviewed(p, u) && Good(p, r, unverified)
    requires r.deployment.Some? && r.deployment.value.planId == p.id
    requires r.upgrade.Some? ==> r.upgrade.value.phase == Complete
    requires baseline.Keys == Names(p.targets)
    requires forall t :: t in p.targets ==> ValidBaseline(t.role, baseline[t.name])
    ensures Good(p, Begun(r, p, u, baseline), unverified)
    ensures Follows(Begun(r, p, u, baseline), u)
  {
    BegunIsSound(p, u, r, baseline);
  }

  lemma BehindBegun(cell: Cell<Record>, r: Record, r': Record)
    requires cell == Cell(r, []) && r'.upgrade.Some?
    requires r.upgrade.Some? ==> r.upgrade.value.planId != r'.upgrade.value.planId
    ensures AllBehind(cell, r')
  {
  }

  lemma WithdrawnIsGood(p: DeploymentPlan, r: Record, u: RolloutPlan, name: string, unverified: set<string>)
    requires Good(p, r, unverified) && Follows(r, u) && name in u.goal
    requires Sound(p.targets, Withdrawn(r, u, name))
    requires r.upgrade.value.currentNode == "" || r.upgrade.value.currentNode == name
    ensures Good(p, Withdrawn(r, u, name), unverified)
    ensures unverified <= {name}
  {
  }

  /** What the controller checks in the reply of one node. */
  predicate ReplyPreserves(g: Progress, name: string, core: Option<CoreSample>, changes: Option<seq<Service>>) {
    var base := At(g.baseline, name, Preservation("", None, "", "", map[], map[]));
    && core.Some?
    && (if g.scope == CoreScope then
          core.value.configSha256 == base.coreConfig && core.value.genesis == base.coreGenesis
        else
          PreservedCore(core.value, base) && changes == Some(At(g.changes, name, [])))
  }

  /** The images the fleet runs: the deployment plan's, until a rollout has
    * replaced them. Core's repository never changes. */
  function EffectiveImages(p: DeploymentPlan, r: Record): Option<FleetImages> {
    if r.runtime.None? then Some(p.images)
    else if r.runtime.value.deploymentId == p.id
            && (forall n :: n in p.images && Core in p.images[n] ==>
                  n in r.runtime.value.images && Core in r.runtime.value.images[n]
                  && r.runtime.value.images[n][Core].repository == p.images[n][Core].repository)
    then Some(r.runtime.value.images)
    else None
  }

  /** A rollout starts from a network no unfinished rollout owns, and from the
    * images and predecessor it was planned against. */
  predicate MayBegin(p: DeploymentPlan, r: Record, u: RolloutPlan) {
    && (r.upgrade.Some? ==> r.upgrade.value.phase == Complete)
    && u.previousId == (if r.runtime.Some? then r.runtime.value.upgradeId else "")
    && EffectiveImages(p, r) == Some(u.source)
  }

  /** The sidecar pins a rollout installs. */
  function CurrentSidecars(r: Record): seq<Sidecar>
    requires r.deployment.Some?
  {
    if r.upgrade.Some? && r.upgrade.value.sidecars != [] then r.upgrade.value.sidecars else EffectiveSidecars(r)
  }

  lemma CurrentIsValid(p: DeploymentPlan, r: Record, unverified: set<string>)
    requires Good(p, r, unverified) && r.deployment.Some?
    ensures ValidSidecars(CurrentSidecars(r))
  {
  }

  /** One pin for each requested service, in order, for the image requested. */
  predicate Answers(pins: seq<Sidecar>, requested: map<nat, string>) {
    && ValidSidecars(pins)
    && (forall i :: 0 <= i < |pins| ==> pins[i].service in requested && pins[i].requested == requested[pins[i].service])
    && (forall k :: k in requested ==> exists i :: 0 <= i < |pins| && pins[i].service == k)
  }

  predicate AnswersBelow(pins: seq<Sidecar>, requested: map<nat, string>, s: nat) {
    && (forall i, j :: 0 <= i < j < |pins| ==> pins[i].service < pins[j].service)
    && (forall i :: 0 <= i < |pins| ==>
          pins[i].service < s && pins[i].service in requested && pins[i].requested == requested[pins[i].service])
    && (forall k :: k in requested && k < s ==> exists i :: 0 <= i < |pins| && pins[i].service == k)
  }

  predicate AllHex(pins: seq<Sidecar>) {
    forall i :: 0 <= i < |pins| ==> Hex64(pins[i].pinned.digest)
  }

  /** The pins so far are the current ones of the services so far. */
  predicate PinsFrom(pins: seq<Sidecar>, current: seq<Sidecar>, s: nat) {
    pins <= current && (|pins| < |current| ==> current[|pins|].service >= s)
  }

  lemma NoPins(requested: map<nat, string>, current: seq<Sidecar>)
    ensures AnswersBelow([], requested, 0) && PinsFrom([], current, 0) && AllHex([])
  {
  }

  lemma PinAdded(pins: seq<Sidecar>, requested: map<nat, string>, s: nat, image: Sidecar)
    requires AnswersBelow(pins, requested, s) && s in requested
    requires image.service == s && image.requested == requested[s]
    ensures AnswersBelow(pins + [image], requested, s + 1)
  {
    forall k | k in requested && k < s + 1
      ensures exists i :: 0 <= i < |pins + [image]| && (pins + [image])[i].service == k
    {
      if k == s {
        assert (pins + [image])[|pins|].service == k;
      } else {
        var i :| 0 <= i < |pins| && pins[i].service == k;
        assert (pins + [image])[i].service == k;
      }
    }
  }

  lemma HexAdded(pins: seq<Sidecar>, image: Sidecar)
    ensures AllHex(pins + [image]) <==> AllHex(pins) && Hex64(image.pinned.digest)
  {
    hide Hex64;
    assert (pins + [image])[|pins|] == image;
    assert forall i :: 0 <= i < |pins| ==> (pins + [image])[i] == pins[i];
  }

  lemma PinSkipped(pins: seq<Sidecar>, requested: map<nat, string>, s: nat, current: seq<Sidecar>)
    requires AnswersBelow(pins, requested, s) && s !in requested
    ensures AnswersBelow(pins, requested, s + 1)
    ensures Answers(current, requested) && PinsFrom(pins, current, s) ==> PinsFrom(pins, current, s + 1)
  {
  }

  lemma PinPlace(pins: seq<Sidecar>, current: seq<Sidecar>, s: nat, j: nat)
    requires forall a, b :: 0 <= a < b < |current| ==> current[a].service < current[b].service
    requires PinsFrom(pins, current, s) && forall i :: 0 <= i < |pins| ==> pins[i].service < s
    requires j < |current| && current[j].service == s
    ensures j == |pins| && PinsFrom(pins + [current[j]], current, s + 1)
  {
    assert forall i :: 0 <= i < |pins| ==> current[i] == pins[i];
  }

  /** The pin found for a service in pins that answer the request already. */
  lemma PinKnown(pins: seq<Sidecar>, current: seq<Sidecar>, requested: map<nat, string>, s: nat, j: nat)
    requires Answers(current, requested) && AnswersBelow(pins, requested, s) && PinsFrom(pins, current, s)
    requires j < |current| && current[j].service == s
    ensures PinsFrom(pins + [current[j]], current, s + 1) && Hex64(current[j].pinned.digest)
  {
    hide Hex64;
    PinPlace(pins, current, s, j);
  }

  lemma PinExists(current: seq<Sidecar>, requested: map<nat, string>, s: nat) returns (j: nat)
    requires Answers(current, requested) && s in requested
    ensures j < |current| && current[j].service == s && current[j].requested == requested[s]
  {
    j :| j < |current| && current[j].service == s;
  }

  lemma AllAnswered(pins: seq<Sidecar>, requested: map<nat, string>, current: seq<Sidecar>)
    requires AnswersBelow(pins, requested, 3) && forall k :: k in requested ==> k < 3
    ensures ValidSidecars(pins) <==> AllHex(pins)
    ensures ValidSidecars(pins) ==> Answers(pins, requested)
    ensures Answers(current, requested) && PinsFrom(pins, current, 3) ==> pins == current
  {
  }

  lemma AnswersNothing(pins: seq<Sidecar>, requested: map<nat, string>)
    requires Answers(pins, requested)
    ensures ValidSidecars(pins) && (pins == [] <==> requested == map[])
  {
    if pins != [] {
      assert pins[0].service in requested;
    }
  }

  /** The lists journaled now name distinct Platform services each. */
  predicate NewlyValid(targets: seq<Target>, g: Progress, staged: map<string, seq<Service>>) {
    forall t :: t in targets && t.role == Validator && t.name !in g.changes && !Reached(g, t.name) ==>
      ValidChanges(At(staged, t.name, []))
  }

  lemma StagedNewly(targets: seq<Target>, g: Progress, staged: map<string, seq<Service>>)
    ensures StagedValid(targets, staged) ==> NewlyValid(targets, g, staged)
  {
  }

  lemma ChangesOfSound(targets: seq<Target>, r: Record)
    requires Sound(targets, r) && r.upgrade.Some? && r.upgrade.value.scope != CoreScope
    ensures ChangesWithin(TrackedNames(targets, r.upgrade.value.scope), r.upgrade.value.changes)
    ensures ValidSidecars(r.upgrade.value.sidecars)
  {
  }

  /** Adds to the journal what each validator not yet reached will recreate. */
  method StagedChanges(targets: seq<Target>, g: Progress, staged: map<string, seq<Service>>)
    returns (out: map<string, seq<Service>>)
    requires ChangesWithin(TrackedNames(targets, g.scope), g.changes) && Staged(targets, staged)
    ensures forall n :: n in g.changes ==> n in out && out[n] == g.changes[n]
    ensures forall t :: t in targets && t.role == Validator && !Reached(g, t.name) ==> t.name in out
    ensures forall n :: n in out && n !in g.changes ==> n in staged && out[n] == staged[n]
    ensures NewlyValid(targets, g, staged) ==> ChangesWithin(TrackedNames(targets, g.scope), out)
    ensures !NewlyValid(targets, g, staged) ==> exists n :: n in out && !ValidChanges(out[n])
  {
    hide ValidChanges;
    out := g.changes;
    var validators := OfRole(targets, Validator);
    for i := 0 to |validators|
      invariant forall n :: n in g.changes ==> n in out && out[n] == g.changes[n]
      invariant forall j :: 0 <= j < i && !Reached(g, validators[j].name) ==> validators[j].name in out
      invariant forall n :: n in out && n !in g.changes ==> n in staged && out[n] == staged[n]
      invariant NewlyValid(targets, g, staged) ==> ChangesWithin(TrackedNames(targets, g.scope), out)
    {
      var t := validators[i];
      assert t in validators && t in targets && t.role == Validator && Tracked(g.scope, t);
      if t.name !in out && !IsDone(g, t.name) && t.name != g.currentNode {
        out := out[t.name := staged[t.name]];
      }
    }
    if !NewlyValid(targets, g, staged) {
      var t :| t in targets && t.role == Validator && t.name !in g.changes && !Reached(g, t.name)
        && !ValidChanges(At(staged, t.name, []));
      assert t in validators;
      assert t.name in out && out[t.name] == staged[t.name];
    }
  }

  predicate ChangesWithin(names: set<string>, changes: map<string, seq<Service>>) {
    forall n :: n in changes ==> n in names && ValidChanges(changes[n])
  }

  /** Only sidecars or staged changes differ. */
  predicate Tweaked(g: Progress, g': Progress) {
    g' == g.(sidecars := g'.sidecars, changes := g'.changes)
  }

  lemma TweakTarget(g: Progress, g': Progress, images: FleetImages, t: Target)
    requires TargetSound(g, images, t) && Tweaked(g, g')
    ensures TargetSound(g', images, t)
  {
  }

  lemma TweakTargets(targets: seq<Target>, g: Progress, g': Progress, images: FleetImages)
    requires Tweaked(g, g') && forall t :: t in targets ==> TargetSound(g, images, t)
    ensures forall t :: t in targets ==> TargetSound(g', images, t)
  {
    forall t | t in targets ensures TargetSound(g', images, t) {
      TweakTarget(g, g', images, t);
    }
  }

  lemma TweakAhead(r: Record, g': Progress)
    requires r.upgrade.Some? && Tweaked(r.upgrade.value, g')
    ensures Ahead(r, WithProgress(r, g'))
  {
  }

  lemma TweakFrame(targets: seq<Target>, r: Record, g': Progress)
    requires ValidFrame(targets, r) && Tweaked(r.upgrade.value, g') && ValidSidecars(g'.sidecars)
    requires g'.changes == r.upgrade.value.changes
             || (g'.scope != CoreScope && ChangesWithin(TrackedNames(targets, g'.scope), g'.changes))
    ensures ValidFrame(targets, WithProgress(r, g'))
  {
  }

  lemma TweakIsSound(targets: seq<Target>, r: Record, g': Progress)
    requires Sound(targets, r) && r.upgrade.Some? && Tweaked(r.upgrade.value, g') && ValidSidecars(g'.sidecars)
    requires g'.changes == r.upgrade.value.changes
             || (g'.scope != CoreScope && ChangesWithin(TrackedNames(targets, g'.scope), g'.changes))
    ensures Sound(targets, WithProgress(r, g')) && Ahead(r, WithProgress(r, g'))
  {
    TweakAhead(r, g');
    TweakFrame(targets, r, g');
    TweakTargets(targets, r.upgrade.value, g', r.runtime.value.images);
  }

  // ------------------------------------------------------------ main theorems

  ghost predicate AllowedBySome(p: DeploymentPlan, plans: seq<RolloutPlan>, c: Call) {
    exists u :: u in plans && CallAllowed(p, u, c)
  }

  /** Any number of runs, of any reviewed plans, each ending in any way. */
  method AllRuns(p: DeploymentPlan, hosts: Hosts, plans: seq<RolloutPlan>)
    requires Safe(p, hosts.store.cell, hosts.unverified)
    requires forall i :: 0 <= i < |hosts.store.attempts| ==> ValidUpgrade(p.targets, hosts.store.attempts[i])
    requires forall u :: u in plans ==> Reviewed(p, u)
    modifies hosts.store, hosts
    ensures Safe(p, hosts.store.cell, hosts.unverified)
    ensures forall i :: 0 <= i < |hosts.store.attempts| ==> ValidUpgrade(p.targets, hosts.store.attempts[i])
    ensures old(hosts.calls) <= hosts.calls
    ensures forall i :: |old(hosts.calls)| <= i < |hosts.calls| ==> AllowedBySome(p, plans, hosts.calls[i])
  {
    hide Sound, CallAllowed, Reviewed, ValidUpgrade;
    var e := new Execution(p, hosts);
    for k := 0 to |plans|
      invariant e.p == p && e.store == hosts.store && e.hosts == hosts && fresh(e) && e.Always()
      invariant old(hosts.calls) <= hosts.calls
      invariant forall i :: |old(hosts.calls)| <= i < |hosts.calls| ==> AllowedBySome(p, plans, hosts.calls[i])
    {
      assert plans[k] in plans;
      ghost var before := hosts.calls;
      var reply := e.Upgrade(plans[k]);
      forall i | |before| <= i < |hosts.calls| ensures AllowedBySome(p, plans, hosts.calls[i]) {
        assert CallAllowed(p, plans[k], hosts.calls[i]);
      }
    }
  }

  /** In every record that is or may come to be stored, a tracked node that is
    * done or current runs its goal images and every other tracked node its
    * source images. */
  lemma ImagesFollowIntent(p: DeploymentPlan, cell: Cell<Record>, unverified: set<string>, x: Record, t: Target)
    requires Safe(p, cell, unverified) && x in cell.Chain() && x.upgrade.Some?
    requires t in p.targets && Tracked(x.upgrade.value.scope, t)
    ensures x.runtime.Some? && t.name in x.runtime.value.images
    ensures t.name in x.upgrade.value.goal && t.name in x.upgrade.value.source
    ensures x.runtime.value.images[t.name]
            == if Reached(x.upgrade.value, t.name) then x.upgrade.value.goal[t.name] else x.upgrade.value.source[t.name]
  {
    assert Good(p, x, unverified);
    assert TargetSound(x.upgrade.value, x.runtime.value.images, t);
  }

  /** While upgrade-apply is issued, exactly the completed nodes and the target
    * are on goal images in the committed record, and no node other than the
    * target has been changed since the fleet was last verified. */
  lemma OneNodeAtATime(p: DeploymentPlan, u: RolloutPlan, c: Call, t: Target)
    requires CallAllowed(p, u, c) && t in p.targets && Tracked(ProgressScope(u.scope), t)
    ensures t.name in u.goal && t.name in u.source && c.cell.stored.runtime.Some?
    ensures t.name in c.cell.stored.runtime.value.images
    ensures c.cell.stored.runtime.value.images[t.name]
            == if IsDone(c.cell.stored.upgrade.value, t.name) || t.name == c.target then u.goal[t.name] else u.source[t.name]
    ensures t.name in c.unverified ==> t.name == c.target
  {
    hide Sound;
    SoundTarget(p.targets, c.cell.stored, t);
  }

  lemma SoundTarget(targets: seq<Target>, x: Record, t: Target)
    requires Sound(targets, x) && x.upgrade.Some? && t in targets
    ensures x.runtime.Some? && TargetSound(x.upgrade.value, x.runtime.value.images, t)
  {
  }

  lemma SoundNames(targets: seq<Target>, x: Record)
    requires Sound(targets, x) && x.upgrade.Some?
    ensures x.upgrade.value.completed.Keys == TrackedNames(targets, x.upgrade.value.scope)
    ensures x.upgrade.value.phase == Complete ==> x.upgrade.value.currentNode == ""
  {
  }

  /** However often a rollout was interrupted, every run that completes it ends
    * with the same images and the same completed nodes. */
  lemma CompletionIsUnique(p: DeploymentPlan, u: RolloutPlan, x: Record, y: Record)
    requires Sound(p.targets, x) && Follows(x, u) && x.upgrade.value.phase == Complete
    requires Sound(p.targets, y) && Follows(y, u) && y.upgrade.value.phase == Complete
    ensures x.runtime.value.images == y.runtime.value.images == u.goal
    ensures x.upgrade.value.completed == y.upgrade.value.completed
    ensures x.upgrade.value.currentNode == y.upgrade.value.currentNode == ""
    ensures Remaining(x.upgrade.value) == Remaining(y.upgrade.value) == 0
  {
    hide Sound;
    CompleteIsConverged(p.targets, x, u);
    CompleteIsConverged(p.targets, y, u);
    SoundNames(p.targets, x);
    SoundNames(p.targets, y);
    NothingRemainsIffDone(x.upgrade.value);
    NothingRemainsIffDone(y.upgrade.value);
  }

  /** A final save that took effect although its call failed is followed by the
    * record of the interruption: the stored rollout was complete and then is
    * interrupted, with nothing left to do and every node on its goal. */
  lemma InterruptedAfterComplete(targets: seq<Target>, u: RolloutPlan, r: Record, at: nat)
    requires Sound(targets, r) && Follows(r, u) && at != 0
    requires r.upgrade.value.currentNode == "" && AllDone(r.upgrade.value)
    ensures var complete := Finished(r, u, at);
      var interrupted := InPhase(complete, Interrupted);
      var committed := Cell(r, []).Attempted(complete).Landed(1);
      && committed == Cell(complete, []) && complete.upgrade.value.phase == Complete
      && committed.Attempted(interrupted).Landed(1) == Cell(interrupted, [])
      && interrupted.upgrade.value.phase == Interrupted
      && ValidUpgrade(targets, complete) && ValidUpgrade(targets, interrupted)
      && interrupted.runtime.value.images == u.goal && Remaining(interrupted.upgrade.value) == 0
  {
    hide Sound, ValidUpgrade;
    var complete := Finished(r, u, at);
    FinishedIsSound(targets, r, u, at);
    PhaseIsSound(targets, complete, Interrupted);
    SoundIsValid(targets, complete);
    SoundIsValid(targets, InPhase(complete, Interrupted));
    NothingRemainsIffDone(InPhase(complete, Interrupted).upgrade.value);
  }

  /** Renders that the node protocol lets through and the record's validator
    * refuses: a Core service, or a service named twice. */
  lemma RefusedRenders(targets: seq<Target>, x: Record, n: string)
    requires x.upgrade.Some? && n in x.upgrade.value.changes
    requires x.upgrade.value.changes[n] == [OtherService("core")] || x.upgrade.value.changes[n] == [DriveAbci, DriveAbci]
    ensures !ValidUpgrade(targets, x)
  {
    assert x.upgrade.value.changes[n][0].OtherService? || x.upgrade.value.changes[n][0] == x.upgrade.value.changes[n][1];
    BadIsInvalid(targets, x);
  }
}
