/** The allocation record of a fleet, and the cloud that acts on it: what each
  * call may have done whatever its caller heard of it. */
module Footprint {
  import opened Claims
  import opened Wrappers

  // ---------------------------------------------------------- the record

  datatype NodePhase = Pending | Launching | Present
  datatype AddressPhase = Allocating | Allocated | Associating | Associated | Releasing | Released
  datatype Ec2State = Unknown | Starting | Running

  /** An allocation identity and its public address. */
  datatype Lease = Lease(id: string, ip: string)

  datatype Address = Address(phase: AddressPhase, attemptedAt: nat, lease: Option<Lease>, association: Option<string>)

  datatype Node = Node(
    phase: NodePhase, attempted: bool, instance: Option<string>, state: Ec2State, observed: bool, address: Option<Address>)

  datatype Phase = Created | Provisioning | Interrupted | ComputeReady | AddressesReleased

  datatype Record = Record(phase: Phase, nodes: map<string, Node>)

  /** The targets, and by target the launch token and the ownership tags. */
  datatype Plan = Plan(
    targets: seq<string>, publicIPv4: bool, tokens: map<string, string>, tags: map<string, map<string, string>>)

  predicate Retiring(n: Node) {
    n.address.Some? && (n.address.value.phase == Releasing || n.address.value.phase == Released)
  }

  predicate ValidAddress(p: Plan, n: Node) {
    n.address.Some? ==>
      && var a := n.address.value;
      && p.publicIPv4 && n.phase == Present
      && if a.phase == Allocating then a.lease.None? && a.association.None?
         else a.lease.Some? && (a.phase == Associated ==> a.association.Some?)
  }

  predicate ValidNode(p: Plan, n: Node) {
    && (match n.phase
        case Pending => n.instance.None? && !n.attempted
        case Launching => n.attempted && n.instance.None?
        case Present => n.attempted && n.instance.Some? && n.observed)
    && ValidAddress(p, n)
  }

  predicate Retired(p: Plan, nodes: map<string, Node>) {
    p.publicIPv4 && forall t :: t in nodes && nodes[t].address.Some? ==> nodes[t].address.value.phase == Released
  }

  ghost predicate Distinct(names: seq<string>) {
    forall i, j :: 0 <= i < j < |names| ==> names[i] != names[j]
  }

  function Names(p: Plan): set<string> {
    set t | t in p.targets
  }

  /** The shared allocation boundary of every record. */
  predicate ValidRecord(p: Plan, x: Record) {
    && x.nodes.Keys == Names(p)
    && (forall t :: t in x.nodes ==> ValidNode(p, x.nodes[t]))
    && (x.phase == AddressesReleased ==> Retired(p, x.nodes))
  }

  // ------------------------------------------------------ what has happened

  /** What the cloud was asked for on behalf of one target, whether or not the
    * runner ever learned of it: an instance was requested, an allocation was
    * accepted (for the attempt of that time), an association or a release was
    * requested. */
  datatype Past = Past(launched: bool, accepted: Option<nat>, associated: bool, released: bool)

  const Nothing: Past := Past(false, None, false, false)

  /** What a stored record must still say about one target. */
  predicate Remembers(n: Node, h: Past, absent: set<string>) {
    && (h.launched ==> n.phase != Pending)
    && (h.accepted.Some? ==> n.address.Some?)
    && (h.accepted.Some? && n.address.value.phase == Allocating ==> n.address.value.attemptedAt == h.accepted.value)
    && (h.associated ==> n.address.Some? && n.address.value.phase != Allocating && n.address.value.phase != Allocated)
    && (h.released ==> Retiring(n))
    && (n.address.Some? && n.address.value.phase == Released ==>
          n.address.value.lease.Some? && n.address.value.lease.value.id in absent)
  }

  ghost predicate Good(p: Plan, x: Record, past: map<string, Past>, absent: set<string>) {
    ValidRecord(p, x) && forall t :: t in x.nodes ==> t in past && Remembers(x.nodes[t], past[t], absent)
  }

  ghost predicate Safe(p: Plan, cell: Cell<Record>, past: map<string, Past>, absent: set<string>) {
    past.Keys == Names(p) && forall x :: x in cell.Chain() ==> Good(p, x, past, absent)
  }

  /** One target's entry changes. */
  lemma EntryStaysGood(p: Plan, x: Record, t: string, n: Node, past: map<string, Past>, absent: set<string>)
    requires Good(p, x, past, absent) && t in x.nodes && x.phase != AddressesReleased
    requires ValidNode(p, n) && Remembers(n, past[t], absent)
    ensures Good(p, x.(nodes := x.nodes[t := n]), past, absent)
  {
  }

  lemma PhaseStaysGood(p: Plan, x: Record, phase: Phase, past: map<string, Past>, absent: set<string>)
    requires Good(p, x, past, absent) && phase != AddressesReleased
    ensures Good(p, x.(phase := phase), past, absent)
  {
  }

  /** Something happens to one target while its intent is the only stored
    * record. */
  lemma PastGrows(p: Plan, x: Record, t: string, h: Past, past: map<string, Past>, absent: set<string>)
    requires Safe(p, Cell(x, []), past, absent) && t in x.nodes && Remembers(x.nodes[t], h, absent)
    ensures Safe(p, Cell(x, []), past[t := h], absent)
  {
    assert x in Cell(x, []).Chain();
    assert past[t := h].Keys == past.Keys;
    forall y | y in Cell(x, []).Chain() ensures Good(p, y, past[t := h], absent) {
      assert y == x;
    }
  }

  lemma AbsenceGrows(p: Plan, cell: Cell<Record>, past: map<string, Past>, absent: set<string>, id: string)
    requires Safe(p, cell, past, absent)
    ensures Safe(p, cell, past, absent + {id})
  {
    forall x | x in cell.Chain() ensures Good(p, x, past, absent + {id}) {
      assert Good(p, x, past, absent);
    }
  }

  // ------------------------------------------------------------- the cloud

  /** How long an allocation intent without a visible address may still be in
    * flight, in minutes. */
  const StaleAllocationAfter: nat := 15

  /** A visible instance of one target, with its interfaces at device index 0
    * and its public address, if any; and an address as listed: where it is
    * attached, if anywhere. */
  datatype Live = Live(instance: string, state: Ec2State, primaries: seq<string>, publicIp: string)
  datatype Attachment = Attachment(association: string, instance: string, interface: string)
  datatype Visible = Visible(lease: Lease, attachment: Option<Attachment>)

  datatype Call = RunInstances(target: string) | AllocateAddress(target: string, accepted: bool)
                | AssociateAddress(target: string) | ReleaseAddress(target: string, evidence: Evidence)

  /** What a retirement had established when it issued a release: the record,
    * the instances proved gone, the listed addresses, and the allocations
    * proved absent. */
  datatype Evidence = Evidence(
    plan: Plan, record: Record, gone: map<string, Proof>, seen: map<string, Visible>, absent: set<string>)

  /** An instance as described under its identity: a tombstone is one that was
    * terminated. */
  datatype Instance = Instance(terminated: bool, token: string, tags: map<string, string>)

  /** Why an instance is taken to be gone: reported absent under its exact
    * identity, or described. */
  datatype Proof = Purged | Described(instance: Instance)

  /** A description proves only the end of the plan's own instance. */
  predicate ProvesGone(p: Plan, t: string, proof: Proof) {
    proof.Described? ==> OwnTombstone(p, t, proof.instance)
  }

  predicate OwnTombstone(p: Plan, t: string, i: Instance) {
    && i.terminated && t in p.tokens && i.token == p.tokens[t]
    && t in p.tags && forall k :: k in p.tags[t] ==> k in i.tags && i.tags[k] == p.tags[t][k]
  }

  /** An address is accounted for when it is listed under its identity and
    * attached to nothing, or proved absent. */
  predicate Accounted(t: string, a: Address, seen: map<string, Visible>, absent: set<string>) {
    || (t in seen && seen[t].attachment.None? && (a.lease.None? || a.lease.value == seen[t].lease))
    || (a.lease.Some? && a.lease.value.id in absent)
  }

  predicate DistinctInstances(nodes: map<string, Node>) {
    forall t, u :: t in nodes && u in nodes && t != u && nodes[t].instance.Some? ==> nodes[t].instance != nodes[u].instance
  }

  predicate Conclusive(e: Evidence) {
    && e.record.nodes.Keys == Names(e.plan) && DistinctInstances(e.record.nodes)
    && forall t :: t in e.record.nodes ==>
      && var n := e.record.nodes[t];
      && n.instance.Some? && n.instance.value in e.gone && ProvesGone(e.plan, t, e.gone[n.instance.value])
      && (n.address.Some? ==> Accounted(t, n.address.value, e.seen, e.absent))
  }

  /** The record names the listed allocation as the one being released. */
  predicate Intended(e: Evidence, t: string) {
    && t in e.record.nodes && t in e.seen && e.record.nodes[t].address.Some?
    && e.record.nodes[t].address.value.phase == Releasing
    && e.record.nodes[t].address.value.lease == Some(e.seen[t].lease)
  }

  /** Calls that may take effect once per target do, and nothing is created
    * after the first release. */
  ghost predicate OncePerTarget(calls: seq<Call>, past: map<string, Past>) {
    && (forall i :: 0 <= i < |calls| ==> calls[i].target in past && Recalled(calls[i], past[calls[i].target]))
    && (forall i, j :: 0 <= i < j < |calls| && !calls[i].ReleaseAddress? && Effective(calls[j]) ==> calls[i] != calls[j])
    && (forall i, j :: 0 <= i < j < |calls| && calls[i].ReleaseAddress? ==> calls[j].ReleaseAddress?)
  }

  /** Every release was issued on evidence about this plan. */
  predicate OfPlan(p: Plan, calls: seq<Call>) {
    forall i :: 0 <= i < |calls| && calls[i].ReleaseAddress? ==> calls[i].evidence.plan == p
  }

  /** A refused allocation has no effect. */
  predicate Effective(c: Call) {
    c.AllocateAddress? ==> c.accepted
  }

  predicate Recalled(c: Call, h: Past) {
    match c
    case RunInstances(_) => h.launched
    case AllocateAddress(_, accepted) => accepted ==> h.accepted.Some?
    case AssociateAddress(_) => h.associated
    case ReleaseAddress(t, e) => h.released && Conclusive(e) && Intended(e, t)
  }

  predicate Untouched(past: map<string, Past>) {
    forall t :: t in past ==> !past[t].released
  }

  lemma CallRecorded(calls: seq<Call>, past: map<string, Past>, c: Call, h: Past)
    requires OncePerTarget(calls, past) && c.target in past && Recalled(c, h)
    requires var g := past[c.target];
      && (g.launched ==> h.launched) && (g.accepted.Some? ==> h.accepted.Some?)
      && (g.associated ==> h.associated) && (g.released ==> h.released)
    requires !c.ReleaseAddress? ==> Untouched(past)
    requires !c.ReleaseAddress? && Effective(c) ==> !Recalled(c, past[c.target])
    ensures OncePerTarget(calls + [c], past[c.target := h])
  {
    var calls', past' := calls + [c], past[c.target := h];
    forall i | 0 <= i < |calls'| ensures calls'[i].target in past' && Recalled(calls'[i], past'[calls'[i].target]) {
      if i < |calls| {
        assert Recalled(calls[i], past[calls[i].target]);
      }
    }
    forall i, j | 0 <= i < j < |calls'| && calls'[i].ReleaseAddress? ensures calls'[j].ReleaseAddress? {
      assert past[calls[i].target].released;
    }
  }

  class Cloud {
    const p: Plan
    const store: Store<Record>
    const pass: nat              // longest time from a listing to the last test that relies on it
    var now: nat
    var passEnd: nat
    var past: map<string, Past>
    var gone: map<string, Proof> // what the last descriptions showed of each instance
    var listed: map<string, Visible>   // the last listing of addresses
    var absent: set<string>      // allocations ever proved absent by their identity
    ghost var calls: seq<Call>

    ghost predicate Consistent()
      reads this
    {
      past.Keys == Names(p) && OncePerTarget(calls, past) && OfPlan(p, calls) && now <= passEnd
    }

    constructor (p: Plan, store: Store<Record>, pass: nat)
      ensures this.p == p && this.store == store && this.pass == pass && Consistent() && calls == [] && absent == {}
      ensures past == map t | t in Names(p) :: Nothing
    {
      this.p, this.store, this.pass := p, store, pass;
      now, passEnd := 0, 0;
      past := map t | t in Names(p) :: Nothing;
      gone, listed, absent, calls := map[], map[], {}, [];
    }

    /** An accepted allocation is listed once its attempt is as old as the
      * stale bound less one pass. */
    predicate Reflects(seen: map<string, Visible>)
      reads `past, `passEnd
    {
      forall t :: t in past && past[t].accepted.Some? && past[t].accepted.value + StaleAllocationAfter <= passEnd ==> t in seen
    }

    method Clock() returns (t: nat)
      requires now <= passEnd
      modifies `now
      ensures t == now && old(now) <= now <= passEnd
    {
      t :| now <= t <= passEnd;
      now := t;
    }

    /** A listing of the network's instances may lack some that exist. */
    method ListInstances() returns (reply: Reply, live: map<string, Live>)
    {
      live := *;
      reply := Outside();
    }

    method ListAddresses() returns (reply: Reply, seen: map<string, Visible>)
      modifies `now, `passEnd, `listed
      ensures now <= passEnd && listed == seen && (reply.Done? ==> Reflects(seen))
    {
      var t: nat :| now <= t;
      now, passEnd := t, t + pass;
      reply := Outside();
      var all: map<string, Visible> := map t | t in past :: Visible(Lease("", ""), None);
      assert Reflects(all);
      seen :| Reflects(seen);
      listed := seen;
    }

    /** The one place where this target's past changes. */
    ghost method Recall(c: Call, h: Past)
      requires Consistent() && c.target in past && Recalled(c, h)
      requires var g := past[c.target];
        && (g.launched ==> h.launched) && (g.accepted.Some? ==> h.accepted.Some?)
        && (g.associated ==> h.associated) && (g.released ==> h.released)
      requires !c.ReleaseAddress? ==> Untouched(past)
      requires !c.ReleaseAddress? && Effective(c) ==> !Recalled(c, past[c.target])
      requires c.ReleaseAddress? ==> c.evidence.plan == p
      modifies `calls
      ensures calls == old(calls) + [c] && OncePerTarget(calls, past[c.target := h]) && OfPlan(p, calls)
    {
      CallRecorded(calls, past, c, h);
      calls := calls + [c];
    }

    /** Requests one instance; the reply may be lost. */
    method Run(t: string) returns (reply: Reply, instance: string)
      requires Consistent() && t in past && !past[t].launched && Untouched(past)
      modifies `past, `calls
      ensures Consistent() && Untouched(past) && past == old(past)[t := old(past)[t].(launched := true)]
    {
      hide OncePerTarget;
      var h := past[t].(launched := true);
      Recall(RunInstances(t), h);
      past := past[t := h];
      instance := *;
      reply := Outside();
    }

    /** Requests one address. A refusal that comes before the request is acted
      * on is known to have had no effect; any other failure is not. */
    method Allocate(t: string, at: nat) returns (reply: Reply, refused: bool, lease: Lease)
      requires Consistent() && t in past && past[t].accepted.None? && Untouched(past)
      modifies `past, `calls
      ensures Consistent() && Untouched(past)
      ensures past == old(past) || past == old(past)[t := old(past)[t].(accepted := Some(at))]
      ensures reply.Done? ==> past[t].accepted.Some?
      ensures refused ==> !reply.Done? && past == old(past)
    {
      hide OncePerTarget;
      var accepted: bool, h := *, past[t];
      refused := *;
      accepted := accepted && !refused;
      if accepted {
        h := h.(accepted := Some(at));
      }
      Recall(Call.AllocateAddress(t, accepted), h);
      past := past[t := h];
      lease := *;
      reply := Answered(accepted);
    }

    method Associate(t: string) returns (reply: Reply)
      requires Consistent() && t in past && !past[t].associated && Untouched(past)
      modifies `past, `calls
      ensures Consistent() && Untouched(past) && past == old(past)[t := old(past)[t].(associated := true)]
    {
      hide OncePerTarget;
      var h := past[t].(associated := true);
      Recall(AssociateAddress(t), h);
      past := past[t := h];
      reply := Outside();
    }

    /** What has been established, of the record that is stored. */
    function Established(): Evidence
      reads this, store
    {
      Evidence(p, store.cell.stored, gone, listed, absent)
    }

    method Release(t: string) returns (reply: Reply)
      requires Consistent() && t in past && store.cell.unlanded == []
      requires Conclusive(Established()) && Intended(Established(), t)
      modifies `past, `calls
      ensures Consistent() && past == old(past)[t := old(past)[t].(released := true)]
      ensures calls == old(calls) + [ReleaseAddress(t, Established())]
    {
      hide OncePerTarget, Conclusive;
      var h := past[t].(released := true);
      Recall(ReleaseAddress(t, Established()), h);
      past := past[t := h];
      reply := Outside();
    }

    /** The instances described under their identities; those purged meanwhile
      * are missing. */
    method DescribeInstances() returns (reply: Reply, live: map<string, Instance>)
      modifies `gone
      ensures gone == map id | id in live :: Described(live[id])
    {
      live := *;
      gone := map id | id in live :: Described(live[id]);
      reply := Outside();
    }

    /** One instance by its exact identity: reported absent. */
    method VerifyPurged(instance: string) returns (reply: Reply)
      modifies `gone
      ensures gone == if reply.Done? then old(gone)[instance := Purged] else old(gone)
    {
      reply := Outside();
      if reply.Done? {
        gone := gone[instance := Purged];
      }
    }

    /** One allocation by its identity: reported not found. */
    method ProveAbsent(id: string) returns (reply: Reply)
      modifies `absent
      ensures absent == if reply.Done? then old(absent) + {id} else old(absent)
    {
      reply := Outside();
      if reply.Done? {
        absent := absent + {id};
      }
    }
  }

  /** What holds between any two steps of any run of either program. */
  ghost predicate Tracked(p: Plan, store: Store<Record>, cloud: Cloud)
    reads store, cloud
  {
    Distinct(p.targets) && cloud.p == p && cloud.store == store && cloud.Consistent() && Safe(p, store.cell, cloud.past, cloud.absent)
  }
}
