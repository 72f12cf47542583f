/** Operations on an existing network: one target is pending at a time, and a
  * validator becomes pending only while every observed quorum can spare it. */
module ManagedRunner {
  import opened Claims
  import opened Quorum
  import opened Text
  import opened Wrappers

  datatype Phase = Enrolling | Enrolled | Staging | Applying | Verifying | Interrupted | Complete

  datatype Record = Record(
    phase: Phase, operation: string, current: string, completed: map<string, bool>,
    enrolled: map<string, bool>, instances: Option<map<string, string>>)

  /** One container: what identifies it, its image, its configuration, the
    * digests of what it runs, and everything else that is observed of it. */
  datatype Artifact = Artifact(id: string, image: string, config: string, digests: set<string>, rest: string)

  /** What one target runs beside the chain: its configuration files, companion
    * workloads, native processes and components. */
  datatype Workload = Workload(
    files: string, companions: map<string, string>, native: map<string, string>, parts: map<string, Artifact>)

  const Unseen := Workload("", map[], map[], map[])

  type Workloads = map<string, Workload>

  datatype Plan = Plan(
    id: string, previous: string, upgrade: bool, fleet: seq<Target>, selection: seq<string>,
    images: map<string, map<string, string>>, snapshot: Workloads)

  predicate Flag(m: map<string, bool>, name: string) {
    name in m && m[name]
  }

  /** Enrolled is this very instance, not a replacement under the same name. */
  predicate IsEnrolled(x: Record, t: Target) {
    Flag(x.enrolled, t.name)
    && (x.instances.Some? ==> t.name in x.instances.value && x.instances.value[t.name] == t.instance)
  }

  function Names(fleet: seq<Target>): set<string> {
    set t | t in fleet :: t.name
  }

  predicate Active(x: Record) {
    x.phase == Staging || x.phase == Applying || x.phase == Verifying || x.phase == Interrupted
  }

  /** What every record must satisfy to be saved. */
  predicate ValidRecord(fleet: seq<Target>, x: Record) {
    && (x.operation == "" || Hex64(x.operation))
    && (Active(x) && x.operation != "" ==>
          forall t :: t in fleet ==> IsEnrolled(x, t) || (Flag(x.completed, t.name) && x.current != t.name))
    && (x.current == "" || x.current in Names(fleet))
    && (x.phase == Complete ==> x.current == "")
  }

  predicate Selects(p: Plan, t: Target) {
    p.selection == [] || t.name in p.selection
  }

  /** By component, the digests the plan installs on a target. */
  function Pins(p: Plan, name: string): map<string, string> {
    if name in p.images then p.images[name] else map[]
  }

  /** Components whose replacement stops a validator's vote. */
  predicate StopsVote(pins: map<string, string>) {
    "core" in pins || "drive" in pins || "tenderdash" in pins
  }

  /** A plan that passed its own validation. */
  ghost predicate ValidPlan(p: Plan) {
    && Hex64(p.id) && p.id != p.previous && (p.previous == "" || Hex64(p.previous))
    && (forall i, j :: 0 <= i < j < |p.fleet| ==> p.fleet[i].name != p.fleet[j].name)
    && (forall t :: t in p.fleet ==> t.name != "")
    && (forall t :: t in p.fleet && Pins(p, t.name) != map[] ==> Selects(p, t))
  }

  // ------------------------------------------------- preservation evidence

  function Seen(w: Workloads, name: string): Workload {
    if name in w then w[name] else Unseen
  }

  /** Core's own processes change when Core is replaced. */
  function Bystanders(native: map<string, string>, core: bool): map<string, string> {
    map k | k in native && !(core && "dashd:" <= k) :: native[k]
  }

  /** Nothing but the selected components differs, and they keep their
    * configuration. */
  predicate Preserved(base: Workload, now: Workload, selected: set<string>) {
    && base.files == now.files && base.companions == now.companions
    && Bystanders(base.native, "core" in selected) == Bystanders(now.native, "core" in selected)
    && forall c :: c in base.parts ==>
         c in now.parts && now.parts[c].config == base.parts[c].config && (c !in selected ==> now.parts[c] == base.parts[c])
  }

  predicate Installed(pins: map<string, string>, now: Workload) {
    forall c :: c in pins ==> c in now.parts && pins[c] in now.parts[c].digests
  }

  /** A selected target is as the plan's snapshot has it, but for the pinned
    * components of a target that is done or current, which run their pins. */
  predicate TargetVerified(p: Plan, x: Record, seen: Workloads, t: Target) {
    Selects(p, t) ==>
      var pins := if Flag(x.completed, t.name) || x.current == t.name then Pins(p, t.name) else map[];
      Preserved(Seen(p.snapshot, t.name), Seen(seen, t.name), pins.Keys) && Installed(pins, Seen(seen, t.name))
  }

  /** Before a deployment the selected containers are still the ones planned
    * for; before an upgrade nothing differs. */
  predicate SourceVerified(p: Plan, seen: Workloads, t: Target) {
    Selects(p, t) ==>
      var base, now := Seen(p.snapshot, t.name), Seen(seen, t.name);
      var selected := if p.upgrade then {} else Pins(p, t.name).Keys;
      && Preserved(base, now, selected)
      && forall c :: c in selected && c in base.parts && c in now.parts ==>
           base.parts[c].id == now.parts[c].id && base.parts[c].image == now.parts[c].image
  }

  /** One observation of the fleet over a window: the targets that were steady
    * over it, and what each node and its workloads showed at its end. */
  datatype Survey = Survey(steady: set<string>, nodes: Nodes, seen: Workloads)

  /** Every target of the plan is healthy. */
  predicate HealthSelected(p: Plan, s: Survey) {
    forall t :: t in p.fleet && Selects(p, t) ==> t.name in s.steady && Healthy(Quorum.Seen(s.nodes, t), t)
  }

  /** The target may be withdrawn: an upgrade demands a healthy fleet, and, where
    * it stops the target's vote, that every observed quorum can spare it. */
  ghost predicate Sparable(p: Plan, t: Target, survey: Option<Survey>) {
    p.upgrade ==>
      && survey.Some? && HealthSelected(p, survey.value)
      && (StopsVote(Pins(p, t.name)) && Countable(p.fleet, survey.value.nodes) ==>
            QuorumHolds(p.fleet, survey.value.nodes, t))
  }

  // ------------------------------------------------- what all runs maintain

  predicate AllCompleted(fleet: seq<Target>, x: Record) {
    forall t :: t in fleet ==> Flag(x.completed, t.name)
  }

  /** The target is done, or in hand. */
  predicate Covers(x: Record, n: string) {
    Flag(x.completed, n) || x.current == n
  }

  /** What has been established: the targets changed by the present operation,
    * the operations whose source was checked, the targets an operation found it
    * could withdraw, and the ones verified since it last changed them. */
  datatype Facts = Facts(
    applied: set<string>, sourced: set<string>, spared: set<(string, string)>, verified: set<(string, string)>) {

    /** A new operation has changed nothing yet. */
    function Started(id: string): Facts {
      Facts({}, sourced + {id}, set q | q in spared && q.0 != id, set q | q in verified && q.0 != id)
    }

    function Spared(id: string, n: string): Facts {
      this.(spared := spared + {(id, n)})
    }

    function Applied(id: string, n: string): Facts {
      this.(applied := applied + {n}, verified := verified - {(id, n)})
    }

    function Verified(id: string, names: set<string>): Facts {
      this.(verified := verified + set n | n in names :: (id, n))
    }
  }

  /** What backs a record: a checked source, a spared target for everything
    * withdrawn, and a verification for everything an upgrade has completed. */
  ghost predicate Backed(fleet: seq<Target>, plans: map<string, Plan>, x: Record, f: Facts) {
    x.operation in plans ==>
      && var p := plans[x.operation];
      && x.operation in f.sourced
      && (x.current != "" ==> (x.operation, x.current) in f.spared)
      && forall n :: n in Names(fleet) && Flag(x.completed, n) && Pins(p, n) != map[] ==>
           && (x.operation, n) in f.spared
           && (p.upgrade || x.phase == Complete ==> (x.operation, n) in f.verified)
  }

  /** A record that may be stored while this is established. */
  ghost predicate Good(fleet: seq<Target>, plans: map<string, Plan>, x: Record, f: Facts) {
    && ValidRecord(fleet, x)
    && (x.current != "" ==> !Flag(x.completed, x.current))
    && (!Active(x) ==> x.current == "")
    && (x.phase == Complete ==> AllCompleted(fleet, x))
    && (x.operation != "" ==> forall t :: t in fleet ==> IsEnrolled(x, t) || (Flag(x.completed, t.name) && x.current != t.name))
    && (forall n :: n in f.applied ==> n != "" && Covers(x, n))
    && Backed(fleet, plans, x, f)
  }

  ghost predicate Safe(fleet: seq<Target>, plans: map<string, Plan>, cell: Cell<Record>, f: Facts) {
    forall x :: x in cell.Chain() ==> Good(fleet, plans, x, f)
  }

  lemma SaveStaysSafe(fleet: seq<Target>, plans: map<string, Plan>, before: Cell<Record>, after: Cell<Record>,
                      r: Record, f: Facts)
    requires Safe(fleet, plans, before, f) && Good(fleet, plans, r, f)
    requires forall x :: x in after.Chain() ==> x in before.Chain() || x == r
    ensures Safe(fleet, plans, after, f)
  {
    hide Good;
  }

  lemma OneStored(fleet: seq<Target>, plans: map<string, Plan>, r: Record, f: Facts)
    ensures Safe(fleet, plans, Cell(r, []), f) <==> Good(fleet, plans, r, f)
  {
    hide Good;
    assert r in Cell(r, []).Chain();
  }

  lemma AppliedIsGood(fleet: seq<Target>, plans: map<string, Plan>, r: Record, f: Facts)
    requires Good(fleet, plans, r, f) && r.current != ""
    ensures Good(fleet, plans, r, f.Applied(r.operation, r.current))
  {
    hide ValidRecord;
  }

  lemma StartedIsGood(fleet: seq<Target>, plans: map<string, Plan>, r: Record, f: Facts, id: string)
    requires Good(fleet, plans, r, f) && r.operation != id
    ensures Good(fleet, plans, r, f.Started(id))
  {
    hide ValidRecord;
  }

  lemma MoreIsGood(fleet: seq<Target>, plans: map<string, Plan>, r: Record, f: Facts, g: Facts)
    requires Good(fleet, plans, r, f) && g.applied == f.applied
    requires f.sourced <= g.sourced && f.spared <= g.spared && f.verified <= g.verified
    ensures Good(fleet, plans, r, g)
  {
    hide ValidRecord;
  }

  // ----------------------------------------------------------- the history

  /** An operation starts from a sweep of the fleet and, for an upgrade, an
    * observation of its health; a target becomes pending, with the journal and
    * the observation of that moment; its host is asked to apply the operation;
    * and the fleet is verified before a completion is committed. */
  datatype Event = Preflight(plan: Plan, seen: Workloads, before: Option<Survey>)
                 | Pending(plan: Plan, target: Target, cell: Cell<Record>, before: Option<Survey>)
                 | Apply(plan: Plan, target: Target, cell: Cell<Record>, facts: Facts)
                 | Verified(plan: Plan, cell: Cell<Record>, after: Survey)

  /** The stored record is one of this operation, with no save outstanding. */
  predicate Settled(p: Plan, cell: Cell<Record>) {
    cell.unlanded == [] && cell.stored.operation == p.id
  }

  ghost predicate Allowed(e: Event) {
    match e
    case Preflight(p, seen, before) =>
      && (forall t :: t in p.fleet ==> SourceVerified(p, seen, t))
      && (p.upgrade ==> before.Some? && HealthSelected(p, before.value))
    case Pending(p, t, cell, before) =>
      && Settled(p, cell) && t in p.fleet && cell.stored.current == "" && !Flag(cell.stored.completed, t.name)
      && Sparable(p, t, before)
    case Apply(p, t, cell, f) =>
      && Settled(p, cell) && t in p.fleet && cell.stored.current == t.name && !Flag(cell.stored.completed, t.name)
      && p.id in f.sourced && (p.id, t.name) in f.spared
      && forall n :: n in f.applied && n != t.name ==> Flag(cell.stored.completed, n)
    case Verified(p, cell, after) =>
      && Settled(p, cell) && HealthSelected(p, after)
      && forall t :: t in p.fleet ==> TargetVerified(p, cell.stored, after.seen, t)
  }

  predicate WasSourced(log: seq<Event>, id: string) {
    exists i :: 0 <= i < |log| && log[i].Preflight? && log[i].plan.id == id
  }

  predicate WasSpared(log: seq<Event>, id: string, n: string) {
    exists i :: 0 <= i < |log| && log[i].Pending? && log[i].plan.id == id && log[i].target.name == n
  }

  predicate Applies(e: Event, id: string, n: string) {
    e.Apply? && e.plan.id == id && e.target.name == n
  }

  predicate Confirms(e: Event, id: string, n: string) {
    e.Verified? && e.plan.id == id && Covers(e.cell.stored, n)
  }

  /** Verified, and not changed since. */
  predicate WasVerified(log: seq<Event>, id: string, n: string) {
    exists i :: 0 <= i < |log| && Confirms(log[i], id, n) && forall j :: i < j < |log| ==> !Applies(log[j], id, n)
  }

  /** Each fact is one of the history. */
  ghost predicate Witnessed(f: Facts, log: seq<Event>) {
    && (forall i :: 0 <= i < |log| ==> Allowed(log[i]))
    && (forall id :: id in f.sourced ==> WasSourced(log, id))
    && (forall q :: q in f.spared ==> WasSpared(log, q.0, q.1))
    && (forall q :: q in f.verified ==> WasVerified(log, q.0, q.1))
  }

  lemma StillWitnessed(log: seq<Event>, e: Event, id: string, n: string)
    ensures WasSourced(log, id) ==> WasSourced(log + [e], id)
    ensures WasSpared(log, id, n) ==> WasSpared(log + [e], id, n)
    ensures WasVerified(log, id, n) && !Applies(e, id, n) ==> WasVerified(log + [e], id, n)
  {
    var more := log + [e];
    assert forall i :: 0 <= i < |log| ==> more[i] == log[i];
    if WasSourced(log, id) {
      var i :| 0 <= i < |log| && log[i].Preflight? && log[i].plan.id == id;
      assert more[i].Preflight?;
    }
    if WasSpared(log, id, n) {
      var i :| 0 <= i < |log| && log[i].Pending? && log[i].plan.id == id && log[i].target.name == n;
      assert more[i].Pending?;
    }
    if WasVerified(log, id, n) && !Applies(e, id, n) {
      var i :| 0 <= i < |log| && Confirms(log[i], id, n) && forall j :: i < j < |log| ==> !Applies(log[j], id, n);
      assert Confirms(more[i], id, n);
    }
  }

  /** One more event witnesses what it establishes. */
  lemma EventWitnesses(log: seq<Event>, f: Facts, e: Event, g: Facts)
    requires Witnessed(f, log) && Allowed(e)
    requires forall id :: id in g.sourced ==> id in f.sourced || (e.Preflight? && e.plan.id == id)
    requires forall q :: q in g.spared ==> q in f.spared || (e.Pending? && e.plan.id == q.0 && e.target.name == q.1)
    requires forall q :: q in g.verified ==> (q in f.verified && !Applies(e, q.0, q.1)) || Confirms(e, q.0, q.1)
    ensures Witnessed(g, log + [e])
  {
    hide Allowed, WasSourced, WasSpared, WasVerified, Confirms, Applies;
    var more := log + [e];
    forall id | id in g.sourced ensures WasSourced(more, id) {
      StillWitnessed(log, e, id, "");
      LastWitnesses(log, e, id, "");
    }
    forall q | q in g.spared ensures WasSpared(more, q.0, q.1) {
      StillWitnessed(log, e, q.0, q.1);
      LastWitnesses(log, e, q.0, q.1);
    }
    forall q | q in g.verified ensures WasVerified(more, q.0, q.1) {
      StillWitnessed(log, e, q.0, q.1);
      LastWitnesses(log, e, q.0, q.1);
    }
  }

  lemma LastWitnesses(log: seq<Event>, e: Event, id: string, n: string)
    ensures e.Preflight? && e.plan.id == id ==> WasSourced(log + [e], id)
    ensures e.Pending? && e.plan.id == id && e.target.name == n ==> WasSpared(log + [e], id, n)
    ensures Confirms(e, id, n) ==> WasVerified(log + [e], id, n)
  {
    assert (log + [e])[|log|] == e;
  }

  /** What an observation is taken for, and whether it serves. */
  datatype Purpose = ToStart(plan: Plan)
                   | ToWithdraw(plan: Plan, target: Target)
                   | ToVerify(plan: Plan, record: Record, last: bool)

  ghost predicate Serves(s: Survey, purpose: Purpose) {
    match purpose
    case ToStart(p) => HealthSelected(p, s)
    case ToWithdraw(p, t) => Sparable(p, t, Some(s)) && HealthSelected(p, s) && Countable(p.fleet, s.nodes)
    case ToVerify(p, x, last) =>
      && (last ==> HealthSelected(p, s))
      && (HealthSelected(p, s) ==> forall t :: t in p.fleet ==> TargetVerified(p, x, s.seen, t))
  }

  /** The hosts. Every choice made here belongs to them; `flawed` records whether
    * in the present run one of them failed or was not as it should be. An
    * observation can be relied on once, and only until something is changed. */
  class Hosts {
    const plans: map<string, Plan>      // the plan behind each identifier
    const store: Store<Record>
    ghost var facts: Facts
    ghost var sweep: Option<Workloads>
    ghost var survey: Option<Survey>
    ghost var log: seq<Event>
    ghost var flawed: bool

    constructor (plans: map<string, Plan>, store: Store<Record>)
      ensures this.plans == plans && this.store == store
      ensures facts == Facts({}, {}, {}, {}) && log == [] && sweep == None && survey == None
    {
      this.plans, this.store := plans, store;
      facts, log, sweep, survey, flawed := Facts({}, {}, {}, {}), [], None, None, false;
    }

    ghost method BeginRun()
      modifies `sweep, `survey, `flawed
      ensures sweep == None && survey == None && !flawed
    {
      sweep, survey, flawed := None, None, false;
    }

    ghost method Note(ok: bool)
      modifies `flawed
      ensures flawed == (old(flawed) || !ok)
    {
      flawed := flawed || !ok;
    }

    /** A call or a read whose effect is not modelled. */
    method Ask() returns (reply: Reply)
      modifies `flawed
      ensures flawed == (old(flawed) || !reply.Done?)
    {
      reply := Outside();
      Note(reply.Done?);
    }

    /** One sweep of the fleet; what does not answer shows nothing. */
    method Sweep(ghost p: Plan) returns (seen: Workloads)
      modifies `sweep, `flawed
      ensures sweep == Some(seen)
      ensures flawed == (old(flawed) || !(forall t :: t in p.fleet ==> SourceVerified(p, seen, t)))
    {
      hide SourceVerified;
      seen := *;
      sweep := Some(seen);
      Note(forall t :: t in p.fleet ==> SourceVerified(p, seen, t));
    }

    /** The fleet over a window. */
    method Observe(ghost purpose: Purpose) returns (reply: Reply, s: Survey)
      modifies `survey, `flawed
      ensures survey == if reply.Done? then Some(s) else None
      ensures flawed == (old(flawed) || !reply.Done? || !Serves(s, purpose))
    {
      hide Serves;
      s := *;
      reply := Outside();
      survey := if reply.Done? then Some(s) else None;
      Note(reply.Done? && Serves(s, purpose));
    }

    /** An operation may start on what was swept and observed. */
    ghost method Start(p: Plan)
      requires Witnessed(facts, log) && sweep.Some? && Allowed(Preflight(p, sweep.value, survey))
      modifies `facts, `log, `sweep, `survey
      ensures Witnessed(facts, log) && facts == old(facts).Started(p.id) && sweep == None && survey == None
      ensures log == old(log) + [Preflight(p, old(sweep).value, old(survey))]
    {
      hide Witnessed, Allowed;
      var e := Preflight(p, sweep.value, survey);
      EventWitnesses(log, facts, e, facts.Started(p.id));
      facts, log, sweep, survey := facts.Started(p.id), log + [e], None, None;
    }

    /** A target may be withdrawn on what was observed. */
    ghost method Spare(p: Plan, t: Target)
      requires Witnessed(facts, log) && Allowed(Pending(p, t, store.cell, survey))
      modifies `facts, `log, `survey
      ensures Witnessed(facts, log) && facts == old(facts).Spared(p.id, t.name) && survey == None
      ensures log == old(log) + [Pending(p, t, store.cell, old(survey))]
    {
      hide Witnessed, Allowed;
      var e := Pending(p, t, store.cell, survey);
      EventWitnesses(log, facts, e, facts.Spared(p.id, t.name));
      facts, log, survey := facts.Spared(p.id, t.name), log + [e], None;
    }

    /** Asks one host to apply the operation; the reply may be lost. */
    method Apply(ghost p: Plan, t: Target) returns (reply: Reply)
      requires Witnessed(facts, log) && Allowed(Event.Apply(p, t, store.cell, facts))
      modifies this
      ensures Witnessed(facts, log) && facts == old(facts).Applied(p.id, t.name) && sweep == None && survey == None
      ensures log == old(log) + [Event.Apply(p, t, store.cell, old(facts))]
      ensures flawed == (old(flawed) || !reply.Done?)
    {
      hide Witnessed, Allowed;
      ghost var e := Event.Apply(p, t, store.cell, facts);
      EventWitnesses(log, facts, e, facts.Applied(p.id, t.name));
      facts, log, sweep, survey := facts.Applied(p.id, t.name), log + [e], None, None;
      reply := Ask();
    }

    /** The fleet was found healthy, and every target as it should be. */
    ghost method Confirm(p: Plan)
      requires Witnessed(facts, log) && survey.Some? && Allowed(Event.Verified(p, store.cell, survey.value))
      modifies `facts, `log, `survey
      ensures Witnessed(facts, log) && survey == None
      ensures facts == old(facts).Verified(p.id, set t | t in p.fleet && Covers(store.cell.stored, t.name) :: t.name)
      ensures log == old(log) + [Event.Verified(p, store.cell, old(survey).value)]
    {
      hide Witnessed, Allowed;
      var e := Event.Verified(p, store.cell, survey.value);
      var names := set t | t in p.fleet && Covers(store.cell.stored, t.name) :: t.name;
      EventWitnesses(log, facts, e, facts.Verified(p.id, names));
      facts, log, survey := facts.Verified(p.id, names), log + [e], None;
    }
  }

  /** A run of the plan may start from this record, or resume it. */
  predicate Admissible(p: Plan, x: Record) {
    AllEnrolled(p, x) && (x.operation == p.id || MayBegin(p, x))
  }

  predicate MayBegin(p: Plan, x: Record) {
    x.operation == p.previous && (x.phase == Enrolled || x.phase == Complete)
  }

  class Runner {
    const p: Plan
    const store: Store<Record>
    const hosts: Hosts
    var r: Record
    var mutated: bool
    ghost var start: Record   // the record this run acquired

    constructor (p: Plan, hosts: Hosts)
      ensures this.p == p && this.store == hosts.store && this.hosts == hosts
    {
      this.p, this.store, this.hosts := p, hosts.store, hosts;
      r, mutated := Record(Enrolling, "", "", map[], map[], None), false;
      start := Record(Enrolling, "", "", map[], map[], None);
    }

    ghost predicate Always()
      reads store, hosts`facts, hosts`log
    {
      && store == hosts.store && p.id in hosts.plans && hosts.plans[p.id] == p
      && Safe(p.fleet, hosts.plans, store.cell, hosts.facts)
      && (forall i :: 0 <= i < |store.attempts| ==> ValidRecord(p.fleet, store.attempts[i]))
      && Witnessed(hosts.facts, hosts.log)
    }

    ghost predicate Savable()
      reads this`r, store, hosts`facts, hosts`log
    {
      Always() && Good(p.fleet, hosts.plans, r, hosts.facts)
    }

    /** The stored record is the one in hand, and belongs to this operation. */
    ghost predicate Holding()
      reads this`r, store, hosts`facts, hosts`log
    {
      Savable() && store.cell == Cell(r, []) && r.operation == p.id && r.phase != Complete
    }

    method Save(next: Record) returns (reply: Reply)
      requires Always() && Good(p.fleet, hosts.plans, next, hosts.facts)
      modifies this`r, store, hosts`flawed
      ensures Savable() && r == next && (reply.Done? ==> store.cell == Cell(r, []))
      ensures hosts.flawed == (old(hosts.flawed) || !reply.Done?)
    {
      hide Good, ValidRecord, Witnessed;
      ghost var before := store.cell;
      GoodIsValid(p.fleet, hosts.plans, next, hosts.facts);
      r := next;
      reply := store.Save(r);
      hosts.Note(reply.Done?);
      SaveStaysSafe(p.fleet, hosts.plans, before, store.cell, r, hosts.facts);
    }

    /** Waits, a bounded number of polls, for healthy targets; then each selected
      * one must be verified. */
    method Verify() returns (reply: Reply)
      requires Holding()
      modifies hosts`facts, hosts`log, hosts`survey, hosts`flawed
      ensures Holding()
      ensures !reply.Done? ==> hosts.log == old(hosts.log) && hosts.facts == old(hosts.facts)
      ensures reply.Done? ==> VerifiedLast(r)
      ensures reply.Done? ==>
        hosts.facts == old(hosts.facts).Verified(p.id, set t | t in p.fleet && Covers(r, t.name) :: t.name)
      ensures hosts.flawed == (old(hosts.flawed) || !reply.Done?)
    {
      hide Good, Safe, Witnessed, TargetVerified, HealthSelected, Covers;
      var polls: nat :| polls > 0;
      for poll := 0 to polls
        invariant Holding() && hosts.log == old(hosts.log) && hosts.facts == old(hosts.facts)
        invariant hosts.flawed == (old(hosts.flawed) || poll == polls)
      {
        var s;
        reply, s := hosts.Observe(ToVerify(p, r, poll == polls - 1));
        if !reply.Done? {
          return;
        }
        if HealthSelected(p, s) {
          reply := Check(s);
          return;
        }
      }
      reply := Failed;
    }

    /** Each selected target of a healthy fleet, against the record in hand. */
    method Check(s: Survey) returns (reply: Reply)
      requires Holding() && hosts.survey == Some(s) && HealthSelected(p, s)
      modifies hosts`facts, hosts`log, hosts`survey
      ensures Holding()
      ensures reply.Done? <==> forall t :: t in p.fleet ==> TargetVerified(p, r, s.seen, t)
      ensures !reply.Done? ==> hosts.log == old(hosts.log) && hosts.facts == old(hosts.facts)
      ensures reply.Done? ==> VerifiedLast(r)
      ensures reply.Done? ==>
        hosts.facts == old(hosts.facts).Verified(p.id, set t | t in p.fleet && Covers(r, t.name) :: t.name)
    {
      hide Good, TargetVerified, HealthSelected, Covers, Witnessed;
      for i := 0 to |p.fleet|
        invariant Holding() && unchanged(hosts)
        invariant forall j :: 0 <= j < i ==> TargetVerified(p, r, s.seen, p.fleet[j])
      {
        if !TargetVerified(p, r, s.seen, p.fleet[i]) {
          assert p.fleet[i] in p.fleet;
          return Failed;
        }
      }
      ghost var before := hosts.facts;
      hosts.Confirm(p);
      MoreIsGood(p.fleet, hosts.plans, r, before, hosts.facts);
      OneStored(p.fleet, hosts.plans, r, hosts.facts);
      reply := Done;
    }

    /** The source of a new operation: preserved and, for an upgrade, healthy. */
    method CheckSource() returns (reply: Reply)
      requires Savable() && store.cell == Cell(r, []) && r.operation != p.id
      modifies hosts`facts, hosts`log, hosts`sweep, hosts`survey, hosts`flawed
      ensures Savable()
      ensures !reply.Done? ==> hosts.log == old(hosts.log) && hosts.facts == old(hosts.facts)
      ensures reply.Done? ==> hosts.facts == old(hosts.facts).Started(p.id) && StartedLast()
      ensures hosts.flawed == (old(hosts.flawed) || !reply.Done?)
    {
      hide Good, SourceVerified, HealthSelected, Witnessed;
      var seen := hosts.Sweep(p);
      for i := 0 to |p.fleet|
        invariant forall j :: 0 <= j < i ==> SourceVerified(p, seen, p.fleet[j])
      {
        if !SourceVerified(p, seen, p.fleet[i]) {
          assert p.fleet[i] in p.fleet;
          return Failed;
        }
      }
      if p.upgrade {
        var s;
        reply, s := hosts.Observe(ToStart(p));
        if reply.Done? && !HealthSelected(p, s) {
          reply := Failed;
        }
        if !reply.Done? {
          return;
        }
      }
      reply := Done;
      ghost var before := hosts.facts;
      hosts.Start(p);
      OneStored(p.fleet, hosts.plans, r, before);
      StartedIsGood(p.fleet, hosts.plans, r, before, p.id);
      OneStored(p.fleet, hosts.plans, r, hosts.facts);
    }

    /** The last thing done was to start this operation. */
    ghost predicate StartedLast()
      reads hosts`log
    {
      hosts.log != [] && var e := hosts.log[|hosts.log| - 1]; e.Preflight? && Allowed(e) && e.plan == p
    }

    /** Starts a new operation on an idle network, after its source was found
      * preserved and, for an upgrade, healthy. */
    method Begin() returns (reply: Reply)
      requires ValidPlan(p) && Savable() && store.cell == Cell(r, []) && r.operation != p.id && AllEnrolled(p, r) && !mutated
      modifies this`r, this`mutated, store, hosts`facts, hosts`log, hosts`sweep, hosts`survey, hosts`flawed
      ensures Savable() && (reply.Done? ==> Holding() && r.current == "" && mutated)
      ensures mutated ==> r == Begun(p, old(r)) && StartedLast() && hosts.facts == old(hosts.facts).Started(p.id)
      ensures !mutated ==> store.cell == old(store.cell) && r == old(r)
      ensures old(hosts.flawed) ==> hosts.flawed
      ensures !hosts.flawed ==> (reply.Done? <==> MayBegin(p, old(r)))
    {
      hide Good, Safe, Witnessed, Allowed;
      if !MayBegin(p, r) {
        return Failed;
      }
      ghost var before := hosts.facts;
      reply := CheckSource();
      if !reply.Done? {
        return;
      }
      BegunIsGood(p, hosts.plans, r, hosts.facts);
      mutated := true;
      reply := Save(Begun(p, r));
    }

    /** Checks that the target can be spared, unless it is pending already, and
      * commits it as the pending one. */
    method Reserve(t: Target) returns (reply: Reply)
      requires ValidPlan(p) && Holding() && t in p.fleet
      requires !Flag(r.completed, t.name) && (r.current == "" || r.current == t.name)
      modifies this`r, store, hosts`facts, hosts`log, hosts`survey, hosts`flawed
      ensures Savable() && (r == old(r) || r == old(r).(current := t.name, phase := Applying))
      ensures reply.Done? ==> Holding() && r == old(r).(current := t.name, phase := Applying)
      ensures r != old(r) && old(r.current) == "" ==> ReservedLast(t, old(store.cell))
      ensures old(hosts.flawed) || !reply.Done? ==> hosts.flawed
    {
      hide Good, Safe, Witnessed, QuorumHolds, Sparable;
      reply := hosts.Ask();
      if !reply.Done? {
        return;
      }
      if r.current == "" {
        reply := CheckSparable(t);
        if !reply.Done? {
          return;
        }
      }
      ReservedIsGood(p.fleet, hosts.plans, r, hosts.facts, t);
      reply := Save(r.(current := t.name, phase := Applying));
    }

    /** The last thing done was to find that the target can be withdrawn while
      * this was the journal. */
    ghost predicate ReservedLast(t: Target, cell: Cell<Record>)
      reads hosts`log
    {
      hosts.log != [] && var e := hosts.log[|hosts.log| - 1];
                         e.Pending? && Allowed(e) && e.plan == p && e.target == t && e.cell == cell
    }

    /** An upgrade demands a healthy fleet, and that every observed quorum can
      * spare a target whose vote it stops. */
    method CheckSparable(t: Target) returns (reply: Reply)
      requires ValidPlan(p) && Holding() && t in p.fleet && !Flag(r.completed, t.name) && r.current == ""
      modifies hosts`facts, hosts`log, hosts`survey, hosts`flawed
      ensures Holding()
      ensures !reply.Done? ==> hosts.log == old(hosts.log) && hosts.facts == old(hosts.facts)
      ensures reply.Done? ==> hosts.facts == old(hosts.facts).Spared(p.id, t.name) && ReservedLast(t, store.cell)
      ensures old(hosts.flawed) || !reply.Done? ==> hosts.flawed
    {
      hide Good, Witnessed, QuorumHolds, Countable, HealthSelected;
      if p.upgrade {
        var s;
        reply, s := hosts.Observe(ToWithdraw(p, t));
        if reply.Done? && !HealthSelected(p, s) {
          reply := Failed;
        }
        if reply.Done? && StopsVote(Pins(p, t.name)) {
          var spare := CanWithdraw(p.fleet, s.nodes, t);
          if !spare {
            reply := Failed;
          }
        }
        if !reply.Done? {
          return;
        }
      }
      reply := Done;
      ghost var before := hosts.facts;
      hosts.Spare(p, t);
      MoreIsGood(p.fleet, hosts.plans, r, before, hosts.facts);
      OneStored(p.fleet, hosts.plans, r, hosts.facts);
    }

    /** The last thing done was a verification of the fleet against this stored
      * record. */
    ghost predicate VerifiedLast(x: Record)
      reads hosts`log
    {
      hosts.log != [] && var e := hosts.log[|hosts.log| - 1];
                         e.Verified? && Allowed(e) && e.plan == p && e.cell == Cell(x, [])
    }

    /** The last verification was against this record, but for its phase. */
    ghost predicate VerifiedBefore(x: Record)
      reads hosts`log
    {
      hosts.log != [] && var e := hosts.log[|hosts.log| - 1]; e.Verified? && VerifiedLast(x.(phase := e.cell.stored.phase))
    }

    /** Asks the pending target's host to apply the operation. */
    method Touch(t: Target) returns (reply: Reply)
      requires ValidPlan(p) && Holding() && t in p.fleet
      requires !Flag(r.completed, t.name) && r.current == t.name
      modifies hosts
      ensures Holding() && hosts.facts == old(hosts.facts).Applied(p.id, t.name)
      ensures hosts.log == old(hosts.log) + [Event.Apply(p, t, store.cell, old(hosts.facts))]
      ensures hosts.flawed == (old(hosts.flawed) || !reply.Done?)
    {
      hide Good, Witnessed;
      PendingIsSpared(p, hosts.plans, r, hosts.facts);
      ghost var before := hosts.facts;
      reply := hosts.Apply(p, t);
      AppliedIsGood(p.fleet, hosts.plans, r, before);
      OneStored(p.fleet, hosts.plans, r, hosts.facts);
    }

    /** Applies the operation to the pending target, verifies it and commits its
      * completion. */
    method Change(t: Target) returns (reply: Reply)
      requires ValidPlan(p) && Holding() && t in p.fleet
      requires !Flag(r.completed, t.name) && r.current == t.name && r.phase == Applying
      modifies this`r, store, hosts
      ensures Savable()
      ensures reply.Done? ==> Holding() && r.current == "" && r.completed == old(r).completed[t.name := true]
      ensures reply.Done? && p.upgrade ==> VerifiedLast(old(r).(phase := Verifying))
      ensures hosts.flawed == (old(hosts.flawed) || !reply.Done?)
    {
      hide Good, Safe, Witnessed, Allowed;
      reply := Touch(t);
      if !reply.Done? {
        return;
      }
      PhaseIsGood(p.fleet, hosts.plans, r, hosts.facts, Verifying);
      reply := Save(r.(phase := Verifying));
      if reply.Done? && p.upgrade {
        reply := Await();
      }
      if !reply.Done? {
        return;
      }
      ChangedIsGood(p, hosts.plans, r, hosts.facts);
      reply := Save(r.(completed := r.completed[t.name := true], current := ""));
    }

    /** The target must serve again before the fleet is verified. */
    method Await() returns (reply: Reply)
      requires Holding()
      modifies hosts`facts, hosts`log, hosts`survey, hosts`flawed
      ensures Holding()
      ensures reply.Done? ==> VerifiedLast(r)
      ensures reply.Done? ==> forall t :: t in p.fleet && Covers(r, t.name) ==> (p.id, t.name) in hosts.facts.verified
      ensures hosts.flawed == (old(hosts.flawed) || !reply.Done?)
    {
      hide Good, Safe, Witnessed, Allowed, Covers;
      reply := hosts.Ask();
      if reply.Done? {
        reply := Verify();
      }
    }

    /** Every target that is not done, in turn; the one a previous run left
      * pending comes first. */
    method ChangeAll() returns (reply: Reply)
      requires ValidPlan(p) && Holding()
      modifies this`r, store, hosts
      ensures Savable() && (reply.Done? ==> Holding() && AllCompleted(p.fleet, r))
      ensures old(hosts.flawed) || !reply.Done? ==> hosts.flawed
    {
      hide Holding, Savable, Flag, Names, AllCompleted, PendingFirst;
      HoldingFacts();
      var order := PendingFirst(p.fleet, r.current);
      PendingComesFirst(p.fleet, r.current);
      reply := Done;
      for i := 0 to |order|
        invariant reply.Done? && Holding() && Savable() && (old(hosts.flawed) ==> hosts.flawed)
        invariant r.current != "" ==> i == 0 && order != [] && order[0].name == r.current
        invariant forall j :: 0 <= j < i ==> Flag(r.completed, order[j].name)
      {
        assert order[i] in order;
        HoldingFacts();
        if !Flag(r.completed, order[i].name) {
          ghost var before := r.completed;
          reply := Step(order[i]);
          if !reply.Done? {
            return;
          }
          FlagStays(before, order[i].name);
        }
      }
      EveryoneFlagged(p.fleet, order, r);
    }

    lemma HoldingFacts()
      requires Holding()
      ensures Savable() && (r.current != "" ==> r.current in Names(p.fleet) && !Flag(r.completed, r.current))
    {
    }

    /** One target: made pending, then changed. */
    method Step(t: Target) returns (reply: Reply)
      requires ValidPlan(p) && Holding() && t in p.fleet
      requires !Flag(r.completed, t.name) && (r.current == "" || r.current == t.name)
      modifies this`r, store, hosts
      ensures Savable()
      ensures reply.Done? ==> Holding() && r.current == "" && r.completed == old(r).completed[t.name := true]
      ensures old(hosts.flawed) || !reply.Done? ==> hosts.flawed
    {
      hide Holding, Savable, Flag;
      HoldingFacts();
      reply := Reserve(t);
      if reply.Done? {
        reply := Change(t);
      }
    }

    /** Confirms an operation already completed, without changing anything. */
    method StillHealthy() returns (reply: Reply)
      modifies hosts`survey, hosts`flawed
      ensures reply.Done? ==> hosts.survey.Some? && HealthSelected(p, hosts.survey.value)
      ensures hosts.flawed == (old(hosts.flawed) || !reply.Done?)
    {
      hide HealthSelected;
      var s;
      reply, s := hosts.Observe(ToStart(p));
      if reply.Done? && !HealthSelected(p, s) {
        reply := Failed;
      }
    }

    /** The operation in hand, from its staging to its completion. */
    method Carry() returns (reply: Reply)
      requires ValidPlan(p) && Holding()
      modifies this`r, store, hosts
      ensures Savable()
      ensures reply.Done? ==> store.cell == Cell(r, []) && r.operation == p.id && r.phase == Complete && AllCompleted(p.fleet, r)
      ensures reply.Done? ==> VerifiedBefore(r)
      ensures old(hosts.flawed) || !reply.Done? ==> hosts.flawed
    {
      hide Good, Safe, Witnessed, Allowed, Covers;
      reply := hosts.Ask();
      if reply.Done? {
        reply := ChangeAll();
      }
      if reply.Done? {
        reply := Verify();
      }
      if reply.Done? {
        CompletedIsGood(p, hosts.plans, r, hosts.facts);
        reply := Save(r.(phase := Complete));
      }
    }

    /** The body of Execute, once the claim is held. */
    method Work() returns (reply: Reply)
      requires ValidPlan(p) && Savable() && store.cell == Cell(r, []) && !mutated
      modifies this`r, this`mutated, store, hosts
      ensures Savable()
      ensures !mutated ==> store.cell == old(store.cell) && r == old(r)
      ensures reply.Done? ==> store.cell == Cell(r, []) && r.operation == p.id && r.phase == Complete && AllCompleted(p.fleet, r)
      ensures reply.Done? && mutated ==> VerifiedBefore(r)
      ensures old(hosts.flawed) ==> hosts.flawed
      ensures !hosts.flawed ==> (reply.Done? <==> Admissible(p, old(r)))
    {
      hide Good, Safe, Witnessed, Allowed, AllEnrolled;
      reply := hosts.Ask();
      if reply.Done? && !AllEnrolled(p, r) {
        reply := Failed;
      }
      if reply.Done? && r.operation != p.id {
        reply := Begin();
      }
      if !reply.Done? {
        return;
      }
      if r.phase == Complete {
        CompleteIsAll(p.fleet, hosts.plans, r, hosts.facts);
        reply := StillHealthy();
        return;
      }
      mutated := true;
      reply := Carry();
    }

    /** One run, from the claim to its release. A run in which nothing goes wrong
      * completes exactly when it may start or resume. */
    method Execute() returns (reply: Reply)
      requires ValidPlan(p) && Always() && hosts.sweep == None && hosts.survey == None
      modifies this`r, this`mutated, this`start, store, hosts
      ensures Always()
      ensures reply.Done? ==>
        store.cell == Cell(r, []) && r.operation == p.id && r.phase == Complete && AllCompleted(p.fleet, r)
      ensures reply.Done? && mutated ==> VerifiedBefore(r)
      ensures start in old(store.cell).Chain()
      ensures !hosts.flawed ==> (reply.Done? <==> Admissible(p, start))
    {
      hide Good, Safe, Witnessed, Allowed, Admissible;
      hosts.BeginRun();
      ghost var before := store.cell;
      r := store.Acquire();
      start := r;
      mutated := false;
      AcquiredIsSafe(p.fleet, hosts.plans, before, store.cell, hosts.facts);
      reply := Work();
      if reply.Failed? && mutated {
        PhaseIsGood(p.fleet, hosts.plans, r, hosts.facts, Interrupted);
        var saved := Save(r.(phase := Interrupted));
        if saved.Killed? {
          reply := Killed;
        }
      }
    }
  }

  lemma GoodIsValid(fleet: seq<Target>, plans: map<string, Plan>, x: Record, f: Facts)
    requires Good(fleet, plans, x, f)
    ensures ValidRecord(fleet, x)
  {
  }

  /** Every target the plan changes is enrolled. */
  predicate AllEnrolled(p: Plan, x: Record) {
    forall t :: t in p.fleet ==> Pins(p, t.name) == map[] || IsEnrolled(x, t)
  }

  function Begun(p: Plan, r: Record): Record {
    r.(operation := p.id, phase := Staging, completed := map n | n in Names(p.fleet) :: Pins(p, n) == map[])
  }

  lemma BegunIsGood(p: Plan, plans: map<string, Plan>, r: Record, f: Facts)
    requires ValidPlan(p) && Good(p.fleet, plans, r, f) && AllEnrolled(p, r) && (r.phase == Enrolled || r.phase == Complete)
    requires p.id in plans && plans[p.id] == p && p.id in f.sourced && f.applied == {}
    ensures Good(p.fleet, plans, Begun(p, r), f) && r.current == ""
  {
    forall t | t in p.fleet ensures IsEnrolled(Begun(p, r), t) || Flag(Begun(p, r).completed, t.name) {
      assert t.name in Names(p.fleet);
    }
  }

  lemma ReservedIsGood(fleet: seq<Target>, plans: map<string, Plan>, r: Record, f: Facts, t: Target)
    requires Good(fleet, plans, r, f) && t in fleet && !Flag(r.completed, t.name) && (r.current == "" || r.current == t.name)
    requires r.operation != "" && r.phase != Complete && (r.current == "" ==> (r.operation, t.name) in f.spared)
    ensures Good(fleet, plans, r.(current := t.name, phase := Applying), f)
  {
  }

  lemma PendingIsSpared(p: Plan, plans: map<string, Plan>, x: Record, f: Facts)
    requires Good(p.fleet, plans, x, f) && x.operation == p.id && p.id in plans && x.current != ""
    ensures p.id in f.sourced && (p.id, x.current) in f.spared
    ensures forall n :: n in f.applied && n != x.current ==> Flag(x.completed, n)
  {
    hide ValidRecord;
  }

  lemma PhaseIsGood(fleet: seq<Target>, plans: map<string, Plan>, r: Record, f: Facts, phase: Phase)
    requires Good(fleet, plans, r, f) && (phase == Verifying || phase == Interrupted)
    ensures Good(fleet, plans, r.(phase := phase), f)
  {
  }

  lemma ChangedIsGood(p: Plan, plans: map<string, Plan>, r: Record, f: Facts)
    requires ValidPlan(p) && Good(p.fleet, plans, r, f) && r.current != "" && Active(r)
    requires p.id in plans && plans[p.id] == p && r.operation == p.id
    requires p.upgrade ==> (p.id, r.current) in f.verified
    ensures Good(p.fleet, plans, r.(completed := r.completed[r.current := true], current := ""), f)
  {
  }

  lemma AcquiredIsSafe(fleet: seq<Target>, plans: map<string, Plan>, before: Cell<Record>, after: Cell<Record>, f: Facts)
    requires Safe(fleet, plans, before, f) && after.unlanded == [] && after.stored in before.Chain()
    ensures Safe(fleet, plans, after, f) && Good(fleet, plans, after.stored, f)
  {
    hide Good;
  }

  lemma CompleteIsAll(fleet: seq<Target>, plans: map<string, Plan>, r: Record, f: Facts)
    requires Good(fleet, plans, r, f) && r.phase == Complete
    ensures AllCompleted(fleet, r)
  {
  }

  lemma CompletedIsGood(p: Plan, plans: map<string, Plan>, r: Record, f: Facts)
    requires Good(p.fleet, plans, r, f) && AllCompleted(p.fleet, r) && r.operation == p.id
    requires p.id in plans && plans[p.id] == p
    requires forall t :: t in p.fleet && Covers(r, t.name) ==> (p.id, t.name) in f.verified
    ensures Good(p.fleet, plans, r.(phase := Complete), f)
  {
  }

  /** The fleet, in its order, but for the pending target. */
  function PendingFirst(fleet: seq<Target>, current: string): seq<Target> {
    Part(fleet, current, true) + Part(fleet, current, false)
  }

  function Part(fleet: seq<Target>, current: string, named: bool): seq<Target> {
    if fleet == [] then []
    else (if (fleet[0].name == current) == named then [fleet[0]] else []) + Part(fleet[1..], current, named)
  }

  lemma {:induction false} PartIs(fleet: seq<Target>, current: string, named: bool)
    ensures forall t :: t in Part(fleet, current, named) <==> t in fleet && (t.name == current) == named
    ensures multiset(Part(fleet, current, true)) + multiset(Part(fleet, current, false)) == multiset(fleet)
  {
    if fleet != [] {
      PartIs(fleet[1..], current, named);
      assert fleet == [fleet[0]] + fleet[1..];
    }
  }

  lemma FlagStays(m: map<string, bool>, name: string)
    ensures Flag(m[name := true], name) && forall n :: Flag(m, n) ==> Flag(m[name := true], n)
  {
  }

  lemma EveryoneFlagged(fleet: seq<Target>, order: seq<Target>, r: Record)
    requires forall t :: t in order <==> t in fleet
    requires forall j :: 0 <= j < |order| ==> Flag(r.completed, order[j].name)
    ensures AllCompleted(fleet, r)
  {
    forall t | t in fleet ensures Flag(r.completed, t.name) {
      assert t in order;
    }
  }

  lemma PendingComesFirst(fleet: seq<Target>, current: string)
    ensures forall t :: t in PendingFirst(fleet, current) <==> t in fleet
    ensures current in Names(fleet) ==>
      PendingFirst(fleet, current) != [] && PendingFirst(fleet, current)[0].name == current
  {
    PendingFirstIsFleet(fleet, current);
  }

  /** The resumed order is the fleet's, with the pending target in front. */
  lemma PendingFirstIsFleet(fleet: seq<Target>, current: string)
    ensures multiset(PendingFirst(fleet, current)) == multiset(fleet)
    ensures forall t :: t in PendingFirst(fleet, current) <==> t in fleet
    ensures current in Names(fleet) ==>
      PendingFirst(fleet, current) != [] && PendingFirst(fleet, current)[0].name == current
  {
    PartIs(fleet, current, true);
    PartIs(fleet, current, false);
    if current in Names(fleet) {
      var t :| t in fleet && t.name == current;
      assert t in Part(fleet, current, true);
      assert Part(fleet, current, true)[0] in Part(fleet, current, true);
    }
  }

  // -------------------------------------------------------- main theorems

  /** Any number of runs of any operations on one fleet, each ending in any way:
    * every attempted save is valid, every record that is or may come to be
    * stored is backed by what was established, and all of that happened. */
  method AllRuns(fleet: seq<Target>, hosts: Hosts, plans: seq<Plan>)
    requires forall p :: p in plans ==> ValidPlan(p) && p.fleet == fleet && p.id in hosts.plans && hosts.plans[p.id] == p
    requires Safe(fleet, hosts.plans, hosts.store.cell, hosts.facts) && Witnessed(hosts.facts, hosts.log)
    requires forall i :: 0 <= i < |hosts.store.attempts| ==> ValidRecord(fleet, hosts.store.attempts[i])
    modifies hosts.store, hosts
    ensures Safe(fleet, hosts.plans, hosts.store.cell, hosts.facts) && Witnessed(hosts.facts, hosts.log)
    ensures forall i :: 0 <= i < |hosts.store.attempts| ==> ValidRecord(fleet, hosts.store.attempts[i])
  {
    hide Safe, ValidRecord, Witnessed, ValidPlan;
    for k := 0 to |plans|
      invariant Safe(fleet, hosts.plans, hosts.store.cell, hosts.facts) && Witnessed(hosts.facts, hosts.log)
      invariant forall i :: 0 <= i < |hosts.store.attempts| ==> ValidRecord(fleet, hosts.store.attempts[i])
    {
      assert plans[k] in plans;
      var runner := new Runner(plans[k], hosts);
      hosts.BeginRun();
      var reply := runner.Execute();
    }
  }

  /** Whatever record of a known upgrade is or may come to be stored, the target
    * it names was found withdrawable: on a healthy fleet, and, where its vote
    * stops, with every observed quorum able to spare it. */
  lemma PendingWasSpared(fleet: seq<Target>, plans: map<string, Plan>, cell: Cell<Record>, f: Facts, log: seq<Event>, x: Record)
    requires Safe(fleet, plans, cell, f) && Witnessed(f, log) && x in cell.Chain()
    requires x.operation in plans && x.current != ""
    ensures exists i :: 0 <= i < |log| && log[i].Pending? && Allowed(log[i]) &&
                        log[i].plan.id == x.operation && log[i].target.name == x.current
  {
    hide Allowed;
    assert Good(fleet, plans, x, f);
    assert WasSpared(log, x.operation, x.current);
  }

  /** Every target that a known upgrade has completed was found withdrawable, and
    * the fleet healthy and the target on its pins since it was last changed. */
  lemma CompletedWasVerified(fleet: seq<Target>, plans: map<string, Plan>, cell: Cell<Record>, f: Facts, log: seq<Event>,
                             x: Record, n: string)
    requires Safe(fleet, plans, cell, f) && Witnessed(f, log) && x in cell.Chain() && x.operation in plans
    requires plans[x.operation].upgrade || x.phase == Complete
    requires n in Names(fleet) && Flag(x.completed, n) && Pins(plans[x.operation], n) != map[]
    ensures WasSpared(log, x.operation, n)
    ensures exists i :: 0 <= i < |log| && Confirms(log[i], x.operation, n) && Allowed(log[i]) &&
                        forall j :: i < j < |log| ==> !Applies(log[j], x.operation, n)
  {
    hide Allowed, Applies, Confirms;
    assert Good(fleet, plans, x, f);
    assert WasVerified(log, (x.operation, n).0, (x.operation, n).1);
  }
}
