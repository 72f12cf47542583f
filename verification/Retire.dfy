/** Retiring the addresses of a terminated fleet: nothing is released until
  * every instance is proved gone and every address accounted for, and the
  * allocation is retired only when each address is proved absent. */
module Retire {
  import opened Claims
  import opened Footprint
  import opened Wrappers
  import opened Provision

  /** The journal as the listing is checked against it: associations ended with
    * the instances, and an address being released may be gone. */
  function Detached(n: Node): Node {
    if n.address.None? then n
    else
      var a := n.address.value;
      n.(address := Some(a.(
        association := None,
        phase := if a.phase == Associated then Allocated else a.phase,
        lease := if Retiring(n) then None else a.lease)))
  }

  function Validation(r: Record): Record {
    r.(nodes := map t | t in r.nodes :: Detached(r.nodes[t]))
  }

  /** No two entries share an instance or an allocation. */
  predicate DistinctIdentities(nodes: map<string, Node>) {
    forall t, u :: t in nodes && u in nodes && t != u ==>
      && (nodes[t].instance.Some? ==> nodes[t].instance != nodes[u].instance)
      && (nodes[t].address.Some? && nodes[u].address.Some? && nodes[t].address.value.lease.Some?
          && nodes[u].address.value.lease.Some? ==>
            nodes[t].address.value.lease.value.id != nodes[u].address.value.lease.value.id)
  }

  predicate Gone(p: Plan, nodes: map<string, Node>, t: string, gone: map<string, Proof>) {
    && t in nodes && nodes[t].instance.Some? && nodes[t].instance.value in gone
    && ProvesGone(p, t, gone[nodes[t].instance.value])
  }

  predicate AllGone(p: Plan, nodes: map<string, Node>, gone: map<string, Proof>) {
    DistinctInstances(nodes) && forall t :: t in nodes ==> Gone(p, nodes, t, gone)
  }

  /** One target before the first release: its address, if it has one, is
    * listed under its identity, or is being released and listed nowhere. */
  predicate Clear(n: Node, t: string, seen: map<string, Visible>) {
    n.address.Some? ==>
      if t in seen then
        && (n.address.value.lease.Some? ==> n.address.value.lease.value == seen[t].lease)
        && n.address.value.phase != Released
      else
        Retiring(n)
  }

  predicate Surveyed(nodes: map<string, Node>, t: string, seen: map<string, Visible>, absent: set<string>) {
    t in nodes && Clear(nodes[t], t, seen) && (nodes[t].address.Some? ==> Accounted(t, nodes[t].address.value, seen, absent))
  }

  lemma SurveyedLater(nodes: map<string, Node>, t: string, seen: map<string, Visible>, absent: set<string>, later: set<string>)
    requires Surveyed(nodes, t, seen, absent) && absent <= later
    ensures Surveyed(nodes, t, seen, later)
  {
  }

  lemma ListedIsDetached(r: Record, seen: map<string, Visible>, t: string)
    requires AddressesMatch(Validation(r), map[], seen) && t in seen
    ensures t in r.nodes && r.nodes[t].address.Some? && seen[t].attachment.None?
  {
    assert AddressMatches(Validation(r).nodes[t], None, seen[t]);
  }

  predicate AllAccounted(nodes: map<string, Node>, seen: map<string, Visible>, absent: set<string>) {
    forall t :: t in nodes && nodes[t].address.Some? ==> Accounted(t, nodes[t].address.value, seen, absent)
  }

  predicate ReleasedAll(nodes: map<string, Node>, names: set<string>) {
    forall t :: t in names && t in nodes && nodes[t].address.Some? ==> nodes[t].address.value.phase == Released
  }

  /** What is known during the releases: everything surveyed but the targets
    * done, which are released. */
  predicate Proved(p: Plan, nodes: map<string, Node>, seen: map<string, Visible>, gone: map<string, Proof>, absent: set<string>, done: set<string>) {
    && AllGone(p, nodes, gone) && AllAccounted(nodes, seen, absent) && ReleasedAll(nodes, done)
    && (forall t :: t in nodes && t in seen ==> nodes[t].address.Some? && seen[t].attachment.None?)
    && (forall t :: t in nodes && t !in done ==> Surveyed(nodes, t, seen, absent))
  }

  lemma SurveyProves(p: Plan, r: Record, seen: map<string, Visible>, gone: map<string, Proof>, absent: set<string>)
    requires AllGone(p, r.nodes, gone) && AddressesMatch(Validation(r), map[], seen)
    requires forall t :: t in r.nodes ==> Surveyed(r.nodes, t, seen, absent)
    ensures Proved(p, r.nodes, seen, gone, absent, {})
  {
    forall t | t in r.nodes && t in seen ensures r.nodes[t].address.Some? && seen[t].attachment.None? {
      ListedIsDetached(r, seen, t);
    }
    forall t | t in r.nodes && r.nodes[t].address.Some? ensures Accounted(t, r.nodes[t].address.value, seen, absent) {
      assert Surveyed(r.nodes, t, seen, absent);
    }
  }

  lemma ProvedOne(p: Plan, nodes: map<string, Node>, seen: map<string, Visible>, gone: map<string, Proof>, absent: set<string>,
                  done: set<string>, t: string)
    requires Proved(p, nodes, seen, gone, absent, done) && t in nodes && t !in done
    ensures AllGone(p, nodes, gone) && AllAccounted(nodes, seen, absent) && Surveyed(nodes, t, seen, absent)
    ensures t in seen ==> nodes[t].address.Some? && seen[t].attachment.None?
  {
  }

  lemma ProvedReleased(p: Plan, nodes: map<string, Node>, seen: map<string, Visible>, gone: map<string, Proof>, absent: set<string>,
                       done: set<string>, names: set<string>)
    requires Proved(p, nodes, seen, gone, absent, done) && names <= done
    ensures ReleasedAll(nodes, names)
  {
  }

  lemma ProvedStep(p: Plan, before: Record, after: Record, seen: map<string, Visible>, gone: map<string, Proof>, absent: set<string>,
                   later: set<string>, done: set<string>, t: string)
    requires Proved(p, before.nodes, seen, gone, absent, done) && Only(before, after, t) && absent <= later
    requires before.nodes[t].address.Some? <==> after.nodes[t].address.Some?
    requires after.nodes[t].address.Some? ==>
      after.nodes[t].address.value.phase == Released && Accounted(t, after.nodes[t].address.value, seen, later)
    ensures Proved(p, after.nodes, seen, gone, later, done + {t})
  {
    forall u | u in after.nodes ensures Gone(p, after.nodes, u, gone) {
      assert Gone(p, before.nodes, u, gone);
    }
    forall u | u in after.nodes && u !in done + {t} ensures Surveyed(after.nodes, u, seen, later) {
      assert Surveyed(before.nodes, u, seen, absent);
    }
  }

  class Retirer {
    const p: Plan
    const store: Store<Record>
    const cloud: Cloud
    var r: Record

    constructor (p: Plan, store: Store<Record>, cloud: Cloud)
      ensures this.p == p && this.store == store && this.cloud == cloud
    {
      this.p, this.store, this.cloud := p, store, cloud;
      r := Record(Created, map[]);
    }

    ghost predicate Savable()
      reads this`r, store, cloud
    {
      Tracked(p, store, cloud) && Good(p, r, cloud.past, cloud.absent)
    }

    ghost predicate Claimed()
      reads this`r, store, cloud
    {
      Savable() && r.phase != AddressesReleased && p.publicIPv4
    }

    method Save() returns (reply: Reply)
      requires Savable()
      modifies store
      ensures Savable() && (reply.Done? ==> store.cell == Cell(r, []))
    {
      hide OncePerTarget;
      ghost var before := store.cell;
      reply := store.Save(r);
      SaveStaysSafe(p, before, store.cell, r, cloud.past, cloud.absent);
    }

    method ProveAbsent(id: string) returns (reply: Reply)
      requires Savable()
      modifies cloud`absent
      ensures Savable() && old(cloud.absent) <= cloud.absent && (reply.Done? ==> id in cloud.absent)
    {
      hide OncePerTarget, Safe, Good;
      AbsenceGrows(p, store.cell, cloud.past, cloud.absent, id);
      AbsenceKeepsGood(p, r, cloud.past, cloud.absent, id);
      reply := cloud.ProveAbsent(id);
    }

    /** Every instance is described as terminated, with the token and the tags it
      * was launched with, or reported absent under its exact identity. */
    method ProveGone() returns (reply: Reply)
      requires Claimed() && DistinctInstances(r.nodes)
      modifies cloud`gone
      ensures Claimed() && (reply.Done? ==> AllGone(p, r.nodes, cloud.gone))
    {
      hide OncePerTarget, Safe, Good, OwnTombstone;
      GoodNames(p, r, cloud.past, cloud.absent);
      for i := 0 to |p.targets|
        invariant forall j :: 0 <= j < i ==> p.targets[j] in r.nodes && r.nodes[p.targets[j]].instance.Some?
      {
        assert p.targets[i] in Names(p);
        var n := r.nodes[p.targets[i]];
        if n.phase != Present || n.instance.None? {
          return Failed;
        }
      }
      var live;
      reply, live := cloud.DescribeInstances();
      if reply.Done? {
        reply := FindPurged(live);
      }
      if reply.Done? && !Tombstones(live) {
        reply := Failed;
      }
    }

    /** Every described instance is the plan's own, and terminated. */
    predicate Tombstones(live: map<string, Instance>)
      reads this`r
    {
      forall t :: t in r.nodes && r.nodes[t].instance.Some? && r.nodes[t].instance.value in live ==>
        OwnTombstone(p, t, live[r.nodes[t].instance.value])
    }

    /** Every instance that is not described is absent under its identity. */
    method FindPurged(live: map<string, Instance>) returns (reply: Reply)
      requires Claimed() && DistinctInstances(r.nodes) && AsDescribed(live, cloud.gone)
      requires forall j :: 0 <= j < |p.targets| ==> p.targets[j] in r.nodes && r.nodes[p.targets[j]].instance.Some?
      modifies cloud`gone
      ensures Claimed() && (reply.Done? && Tombstones(live) ==> AllGone(p, r.nodes, cloud.gone))
    {
      hide OncePerTarget, Safe, Good, OwnTombstone, Tombstones, AllGone;
      GoodNames(p, r, cloud.past, cloud.absent);
      reply := Done;
      for i := 0 to |p.targets|
        invariant Claimed() && reply.Done? && AsDescribed(live, cloud.gone)
        invariant forall j :: 0 <= j < i ==> r.nodes[p.targets[j]].instance.value in cloud.gone
      {
        var instance := r.nodes[p.targets[i]].instance.value;
        if instance !in live {
          reply := cloud.VerifyPurged(instance);
          if !reply.Done? {
            return;
          }
        }
      }
      if Tombstones(live) {
        AllProved(live, cloud.gone);
      }
    }

    predicate AsDescribed(live: map<string, Instance>, gone: map<string, Proof>) {
      live.Keys <= gone.Keys && forall id :: id in gone ==> gone[id] == if id in live then Described(live[id]) else Purged
    }

    lemma AllProved(live: map<string, Instance>, gone: map<string, Proof>)
      requires Tombstones(live) && AsDescribed(live, gone) && r.nodes.Keys == Names(p) && DistinctInstances(r.nodes)
      requires forall j :: 0 <= j < |p.targets| ==>
        p.targets[j] in r.nodes && r.nodes[p.targets[j]].instance.Some? && r.nodes[p.targets[j]].instance.value in gone
      ensures AllGone(p, r.nodes, gone)
    {
      hide OwnTombstone;
      forall t | t in r.nodes ensures Gone(p, r.nodes, t, gone) {
        assert t in Names(p);
      }
    }

    /** Every address is listed, owned and detached, or proved absent. */
    method Survey() returns (reply: Reply, seen: map<string, Visible>)
      requires Claimed()
      modifies cloud`now, cloud`passEnd, cloud`listed, cloud`absent
      ensures Claimed()
      ensures reply.Done? ==> AddressesMatch(Validation(r), map[], seen) && cloud.listed == seen
      ensures reply.Done? ==> forall t :: t in r.nodes ==> Surveyed(r.nodes, t, seen, cloud.absent)
    {
      hide OncePerTarget, Safe, Good, AddressesMatch, Surveyed;
      GoodNames(p, r, cloud.past, cloud.absent);
      reply, seen := cloud.ListAddresses();
      if reply.Done? && !AddressesMatch(Validation(r), map[], seen) {
        reply := Failed;
      }
      if !reply.Done? {
        return;
      }
      for i := 0 to |p.targets|
        invariant Claimed() && reply.Done? && cloud.listed == seen
        invariant forall j :: 0 <= j < i ==> Surveyed(r.nodes, p.targets[j], seen, cloud.absent)
      {
        var t := p.targets[i];
        assert t in Names(p);
        ghost var before := cloud.absent;
        reply := Inspect(t, seen);
        if !reply.Done? {
          return;
        }
        forall j | 0 <= j < i ensures Surveyed(r.nodes, p.targets[j], seen, cloud.absent) {
          SurveyedLater(r.nodes, p.targets[j], seen, before, cloud.absent);
        }
      }
    }

    method Inspect(t: string, seen: map<string, Visible>) returns (reply: Reply)
      requires Claimed() && t in r.nodes && AddressesMatch(Validation(r), map[], seen)
      modifies cloud`absent
      ensures Claimed() && old(cloud.absent) <= cloud.absent
      ensures reply.Done? ==> Surveyed(r.nodes, t, seen, cloud.absent)
    {
      hide OncePerTarget, Safe, Good, AddressesMatch;
      var n := r.nodes[t];
      EntryOf(p, r, t, cloud.past, cloud.absent);
      reply := Done;
      if !Clear(n, t, seen) {
        return Failed;
      }
      if t in seen {
        ListedIsDetached(r, seen, t);
      } else if n.address.Some? {
        reply := ProveAbsent(n.address.value.lease.value.id);
      }
    }

    method Commit(t: string, n: Node) returns (reply: Reply)
      requires Claimed() && t in r.nodes && ValidNode(p, n) && Remembers(n, cloud.past[t], cloud.absent)
      modifies this`r, store
      ensures Claimed() && r == old(r).(nodes := old(r).nodes[t := n])
      ensures reply.Done? ==> store.cell == Cell(r, [])
    {
      hide OncePerTarget, Safe, Good;
      EntryStaysGood(p, r, t, n, cloud.past, cloud.absent);
      r := r.(nodes := r.nodes[t := n]);
      reply := Save();
    }

    /** Releases one listed address: the intent is the stored record when the
      * release is issued. */
    method ReleaseListed(t: string, seen: map<string, Visible>) returns (reply: Reply)
      requires Claimed() && t in r.nodes && AllGone(p, r.nodes, cloud.gone) && AllAccounted(r.nodes, seen, cloud.absent)
      requires t in seen && seen[t].attachment.None? && r.nodes[t].address.Some? && Clear(r.nodes[t], t, seen)
      requires cloud.listed == seen
      modifies this`r, store, cloud`past, cloud`calls, cloud`absent
      ensures Claimed() && Only(old(r), r, t) && old(cloud.absent) <= cloud.absent
      ensures r.nodes[t].address.Some? && r.nodes[t].address.value.phase == Releasing
      ensures r.nodes[t].address.value.lease == Some(seen[t].lease)
      ensures reply.Done? ==> seen[t].lease.id in cloud.absent
      ensures reply.Done? ==>
        cloud.calls == old(cloud.calls) + [ReleaseAddress(t, Evidence(p, r, cloud.gone, seen, old(cloud.absent)))]
    {
      hide OncePerTarget, Safe, Good, AllGone, AllAccounted;
      EntryOf(p, r, t, cloud.past, cloud.absent);
      var n := r.nodes[t];
      n := n.(address := Some(n.address.value.(phase := Releasing, lease := Some(seen[t].lease))));
      ghost var before := r;
      reply := Commit(t, n);
      if !reply.Done? {
        return;
      }
      GoodNames(p, r, cloud.past, cloud.absent);
      EvidenceHolds(p, before, r, t, cloud.gone, seen, cloud.absent);
      PastGrows(p, r, t, cloud.past[t].(released := true), cloud.past, cloud.absent);
      reply := cloud.Release(t);
      StoredIsGood(p, store.cell, r, cloud.past, cloud.absent);
      if reply.Done? {
        reply := ProveAbsent(seen[t].lease.id);
      }
    }

    /** One target's address: released if it is listed, then proved absent. */
    method ReleaseOne(t: string, seen: map<string, Visible>) returns (reply: Reply)
      requires Claimed() && t in r.nodes && AllGone(p, r.nodes, cloud.gone) && AllAccounted(r.nodes, seen, cloud.absent)
      requires cloud.listed == seen
      requires Surveyed(r.nodes, t, seen, cloud.absent) && (t in seen ==> r.nodes[t].address.Some? && seen[t].attachment.None?)
      modifies this`r, store, cloud`past, cloud`calls, cloud`absent
      ensures Claimed() && Only(old(r), r, t) && old(cloud.absent) <= cloud.absent
      ensures reply.Done? ==> (r.nodes[t].address.Some? <==> old(r).nodes[t].address.Some?)
      ensures reply.Done? && r.nodes[t].address.Some? ==>
        r.nodes[t].address.value.phase == Released && Accounted(t, r.nodes[t].address.value, seen, cloud.absent)
    {
      hide OncePerTarget, Safe, Good, AllGone, AllAccounted;
      reply := Outside();
      if reply.Done? && t in seen {
        reply := ReleaseListed(t, seen);
      }
      var n := r.nodes[t];
      if !reply.Done? || n.address.None? {
        return;
      }
      EntryOf(p, r, t, cloud.past, cloud.absent);
      reply := Commit(t, n.(address := Some(n.address.value.(phase := Released))));
    }

    method ReleaseAll(seen: map<string, Visible>) returns (reply: Reply)
      requires Claimed() && Proved(p, r.nodes, seen, cloud.gone, cloud.absent, {}) && cloud.listed == seen
      modifies this`r, store, cloud`past, cloud`calls, cloud`absent
      ensures Claimed() && (reply.Done? ==> ReleasedAll(r.nodes, Names(p)))
    {
      hide OncePerTarget, Claimed, Proved;
      ClaimedNames();
      reply := Done;
      ghost var done: set<string> := {};
      for i := 0 to |p.targets|
        invariant Claimed() && reply.Done? && Proved(p, r.nodes, seen, cloud.gone, cloud.absent, done)
        invariant forall j :: 0 <= j < |p.targets| ==> (p.targets[j] in done <==> j < i)
      {
        ClaimedNames();
        var t := p.targets[i];
        assert t in Names(p);
        ProvedOne(p, r.nodes, seen, cloud.gone, cloud.absent, done, t);
        ghost var before, absent := r, cloud.absent;
        reply := ReleaseOne(t, seen);
        if !reply.Done? {
          return;
        }
        ProvedStep(p, before, r, seen, cloud.gone, absent, cloud.absent, done, t);
        done := done + {t};
      }
      ProvedReleased(p, r.nodes, seen, cloud.gone, cloud.absent, done, Names(p));
    }

    lemma ClaimedNames()
      requires Claimed()
      ensures r.nodes.Keys == Names(p) && Distinct(p.targets)
    {
    }

    method Finish() returns (reply: Reply)
      requires Claimed() && ReleasedAll(r.nodes, Names(p))
      modifies this`r, store
      ensures Savable() && r.phase == AddressesReleased
      ensures reply.Done? ==> store.cell == Cell(r, [])
    {
      hide OncePerTarget, Safe;
      r := r.(phase := AddressesReleased);
      reply := Save();
    }

    /** The body of Execute, once the claim is held. */
    method Work() returns (reply: Reply)
      requires Savable() && p.publicIPv4 && store.cell == Cell(r, [])
      modifies this`r, store, cloud`now, cloud`passEnd, cloud`listed, cloud`past, cloud`calls, cloud`absent, cloud`gone
      ensures Savable()
      ensures reply.Done? ==> r.phase == AddressesReleased && store.cell == Cell(r, [])
    {
      hide OncePerTarget, Safe, Good;
      if !DistinctIdentities(r.nodes) {
        return Failed;
      }
      if r.phase == AddressesReleased {
        return Done;
      }
      reply := ProveGone();
      if !reply.Done? {
        return;
      }
      var seen;
      reply, seen := Survey();
      if !reply.Done? {
        return;
      }
      SurveyProves(p, r, seen, cloud.gone, cloud.absent);
      reply := ReleaseAll(seen);
      if reply.Done? {
        reply := Finish();
      }
    }

    /** One run, from the claim to its release. */
    method Execute() returns (reply: Reply)
      requires Tracked(p, store, cloud)
      modifies this`r, store, cloud`now, cloud`passEnd, cloud`listed, cloud`past, cloud`calls, cloud`absent, cloud`gone
      ensures Tracked(p, store, cloud)
      ensures reply.Done? ==> store.cell == Cell(r, []) && r.phase == AddressesReleased
    {
      hide OncePerTarget, Safe, Good;
      if !p.publicIPv4 {
        return Failed;
      }
      ghost var before := store.cell;
      r := store.Acquire();
      AcquiredIsSafe(p, before, store.cell, cloud.past, cloud.absent);
      reply := Work();
      if reply.Failed? && r.phase != AddressesReleased && DistinctIdentities(r.nodes) {
        PhaseStaysGood(p, r, Interrupted, cloud.past, cloud.absent);
        r := r.(phase := Interrupted);
        var saved := Save();
        if saved.Killed? {
          reply := Killed;
        }
      }
    }
  }

  /** Naming the listed allocation keeps the evidence conclusive. */
  lemma EvidenceHolds(p: Plan, before: Record, r: Record, t: string, gone: map<string, Proof>, seen: map<string, Visible>, absent: set<string>)
    requires AllGone(p, before.nodes, gone) && AllAccounted(before.nodes, seen, absent) && Only(before, r, t)
    requires t in seen && seen[t].attachment.None?
    requires r.nodes[t].address.Some? && r.nodes[t].address.value.lease == Some(seen[t].lease)
    requires r.nodes.Keys == Names(p)
    ensures Conclusive(Evidence(p, r, gone, seen, absent))
  {
    forall u | u in r.nodes
      ensures r.nodes[u].instance.Some? && r.nodes[u].instance.value in gone
      ensures r.nodes[u].address.Some? ==> Accounted(u, r.nodes[u].address.value, seen, absent)
    {
      assert Gone(p, before.nodes, u, gone);
    }
  }

  lemma AbsenceKeepsGood(p: Plan, r: Record, past: map<string, Past>, absent: set<string>, id: string)
    requires Good(p, r, past, absent)
    ensures Good(p, r, past, absent + {id})
  {
  }

  // -------------------------------------------------------- main theorems

  /** The record a new plan starts from. */
  function NewRecord(p: Plan): Record {
    Record(Created, map t | t in Names(p) :: Node(Pending, false, None, Unknown, false, None))
  }

  lemma NewRecordIsSafe(p: Plan)
    ensures Safe(p, Cell(NewRecord(p), []), map t | t in Names(p) :: Nothing, {})
  {
    var cell := Cell(NewRecord(p), []);
    forall x | x in cell.Chain() ensures Good(p, x, map t | t in Names(p) :: Nothing, {}) {
      assert x == NewRecord(p);
    }
  }

  /** Any number of provisioning and retirement runs of one plan, in any order,
    * each ending in any way. */
  method AllRuns(p: Plan, store: Store<Record>, cloud: Cloud, retire: seq<bool>)
    requires Tracked(p, store, cloud)
    modifies store, cloud
    ensures Tracked(p, store, cloud)
  {
    for k := 0 to |retire|
      invariant Tracked(p, store, cloud)
    {
      if retire[k] {
        var retirer := new Retirer(p, store, cloud);
        var reply := retirer.Execute();
      } else {
        var provisioner := new Provisioner(p, store, cloud);
        var reply := provisioner.Execute();
      }
    }
  }

  /** An instance, an accepted allocation or an association happens at most once
    * per target, over all runs. */
  lemma OncePerTargetCounts(calls: seq<Call>, past: map<string, Past>, c: Call)
    requires OncePerTarget(calls, past) && !c.ReleaseAddress? && Effective(c)
    ensures |set i | 0 <= i < |calls| && calls[i] == c| <= 1
  {
    var matches := set i | 0 <= i < |calls| && calls[i] == c;
    if matches != {} {
      var i :| i in matches;
      assert matches == {i};
    }
  }

  /** A release was issued only when every instance of the plan was proved gone
    * and every address accounted for, with the intent stored, and nothing was
    * created after it. */
  lemma ReleasesAreConclusive(cloud: Cloud, i: nat, j: nat)
    requires cloud.Consistent() && i < |cloud.calls| && cloud.calls[i].ReleaseAddress?
    ensures var e := cloud.calls[i].evidence;
      && e.plan == cloud.p && e.record.nodes.Keys == Names(cloud.p) && Conclusive(e) && Intended(e, cloud.calls[i].target)
    ensures i < j < |cloud.calls| ==> cloud.calls[j].ReleaseAddress? && Conclusive(cloud.calls[j].evidence)
  {
    assert Recalled(cloud.calls[i], cloud.past[cloud.calls[i].target]);
    if i < j < |cloud.calls| {
      assert Recalled(cloud.calls[j], cloud.past[cloud.calls[j].target]);
    }
  }

  /** Every record that is or may come to be stored admits the instance that was
    * requested, and an allocation that was accepted. */
  lemma IntentsAreStored(p: Plan, cell: Cell<Record>, past: map<string, Past>, absent: set<string>, x: Record, t: string)
    requires Safe(p, cell, past, absent) && x in cell.Chain() && t in Names(p)
    ensures t in x.nodes && t in past
    ensures past[t].launched ==> x.nodes[t].phase == Launching || x.nodes[t].phase == Present
    ensures past[t].accepted.Some? ==> x.nodes[t].address.Some?
  {
    assert Good(p, x, past, absent);
    assert Remembers(x.nodes[t], past[t], absent);
  }

  /** A retired record has every allocation proved absent by its identity. */
  lemma RetiredIsAbsent(p: Plan, cell: Cell<Record>, past: map<string, Past>, absent: set<string>, x: Record, t: string)
    requires Safe(p, cell, past, absent) && x in cell.Chain() && x.phase == AddressesReleased
    requires t in x.nodes && x.nodes[t].address.Some?
    ensures x.nodes[t].address.value.lease.Some? && x.nodes[t].address.value.lease.value.id in absent
  {
    assert Good(p, x, past, absent);
    assert Remembers(x.nodes[t], past[t], absent);
  }
}
