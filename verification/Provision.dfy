/** Provisioning a fleet: the intent is journaled before each cloud call, and a
  * call whose outcome is unknown is reconciled, never repeated. */
module Provision {
  import opened Claims
  import opened Footprint
  import opened Wrappers

  /** What a listing does to one target's entry; none where it is refused. */
  function Reconciled(n: Node, found: Option<Live>, wait: bool): Option<Node> {
    match found
    case None =>
      if wait then Some(n.(state := Unknown)) else if n.phase != Pending then None else Some(n)
    case Some(l) =>
      if n.phase == Pending || (n.instance.Some? && n.instance.value != l.instance) then None
      else Some(n.(instance := Some(l.instance), phase := Present, state := l.state, observed := true))
  }

  function Found(live: map<string, Live>, t: string): Option<Live> {
    if t in live then Some(live[t]) else None
  }

  /** The one primary interface of an instance. */
  function PrimaryInterface(l: Live): Option<string> {
    if |l.primaries| == 1 && l.primaries[0] != "" then Some(l.primaries[0]) else None
  }

  /** The instance has one primary interface, and no public address but the one
    * listed for the target. */
  predicate Attachable(live: map<string, Live>, seen: map<string, Visible>, t: string) {
    && t in live && PrimaryInterface(live[t]).Some?
    && (live[t].publicIp == "" || (t in seen && seen[t].lease.ip == live[t].publicIp))
  }

  /** One listed address against its journal entry. */
  predicate AddressMatches(n: Node, live: Option<Live>, v: Visible) {
    && n.address.Some?
    && var a := n.address.value;
    && (a.lease.Some? ==> a.lease.value == v.lease)
    && match v.attachment
       case None => a.phase != Associated
       case Some(at) =>
         && live.Some? && PrimaryInterface(live.value) == Some(at.interface) && n.instance == Some(at.instance)
         && (a.association.None? || a.association.value == at.association)
  }

  /** The listed addresses belong to the journal, and every recorded one is
    * listed. */
  predicate AddressesMatch(r: Record, live: map<string, Live>, seen: map<string, Visible>) {
    && (forall t :: t in seen ==> t in r.nodes && AddressMatches(r.nodes[t], Found(live, t), seen[t]))
    && (forall t, u :: t in seen && u in seen && t != u ==> seen[t].lease.id != seen[u].lease.id)
    && (forall t :: t in r.nodes && r.nodes[t].address.Some? && r.nodes[t].address.value.lease.Some? ==> t in seen)
  }

  lemma SaveStaysSafe(p: Plan, before: Cell<Record>, after: Cell<Record>, r: Record, past: map<string, Past>, absent: set<string>)
    requires Safe(p, before, past, absent) && Good(p, r, past, absent)
    requires forall x :: x in after.Chain() ==> x in before.Chain() || x == r
    ensures Safe(p, after, past, absent)
  {
  }

  predicate NoneRetiring(nodes: map<string, Node>) {
    forall t :: t in nodes ==> !Retiring(nodes[t])
  }

  lemma NoneReleased(p: Plan, r: Record, past: map<string, Past>, absent: set<string>)
    requires Good(p, r, past, absent) && past.Keys == Names(p) && NoneRetiring(r.nodes)
    ensures Untouched(past)
  {
    forall t | t in past ensures !past[t].released {
      assert t in r.nodes && Remembers(r.nodes[t], past[t], absent);
    }
  }

  /** The listed addresses of the targets still to be handled fit the journal. */
  predicate Rest(r: Record, live: map<string, Live>, seen: map<string, Visible>, done: set<string>) {
    forall u :: u in seen && u in r.nodes && u !in done ==> AddressMatches(r.nodes[u], Found(live, u), seen[u])
  }

  lemma RestMatches(r: Record, live: map<string, Live>, seen: map<string, Visible>, done: set<string>)
    requires AddressesMatch(r, live, seen)
    ensures Rest(r, live, seen, done) && seen.Keys <= r.nodes.Keys
  {
  }

  lemma RestStep(r: Record, live: map<string, Live>, seen: map<string, Visible>, done: set<string>, t: string)
    requires Rest(r, live, seen, done)
    ensures Rest(r, live, seen, done + {t})
    ensures t in seen && t in r.nodes && t !in done ==> AddressMatches(r.nodes[t], Found(live, t), seen[t])
  {
  }

  lemma MatchedHasAddress(n: Node, live: Option<Live>, v: Visible)
    requires AddressMatches(n, live, v)
    ensures n.address.Some?
  {
  }

  lemma AdoptedMatches(n: Node, live: Option<Live>, v: Visible)
    requires AddressMatches(n, live, v) && n.address.value.phase == Allocating
    ensures AddressMatches(n.(address := Some(n.address.value.(phase := Allocated, lease := Some(v.lease)))), live, v)
  {
  }

  lemma RestAdopted(r: Record, r': Record, live: map<string, Live>, seen: map<string, Visible>, done: set<string>, t: string)
    requires Rest(r, live, seen, done) && Only(r, r', t)
    requires t in seen ==> AddressMatches(r'.nodes[t], Found(live, t), seen[t])
    ensures Rest(r', live, seen, done)
  {
  }

  lemma RestElsewhere(r: Record, r': Record, live: map<string, Live>, seen: map<string, Visible>, done: set<string>, t: string)
    requires Rest(r, live, seen, done + {t}) && Only(r, r', t)
    ensures Rest(r', live, seen, done + {t})
  {
  }

  /** An intent without a listed address that is old enough never allocated. */
  lemma NeverAccepted(n: Node, h: Past, absent: set<string>, passEnd: nat, now: nat)
    requires Remembers(n, h, absent) && now <= passEnd
    requires h.accepted.Some? ==> h.accepted.value + StaleAllocationAfter > passEnd
    requires n.address.Some? ==>
      n.address.value.phase == Allocating && n.address.value.attemptedAt + StaleAllocationAfter <= now
    ensures h.accepted.None? && !h.associated
  {
  }

  lemma ReconciledFits(p: Plan, n: Node, found: Option<Live>, wait: bool, h: Past, absent: set<string>)
    requires ValidNode(p, n) && Remembers(n, h, absent) && Reconciled(n, found, wait).Some?
    ensures ValidNode(p, Reconciled(n, found, wait).value) && Remembers(Reconciled(n, found, wait).value, h, absent)
  {
  }

  lemma GoodNames(p: Plan, r: Record, past: map<string, Past>, absent: set<string>)
    requires Good(p, r, past, absent)
    ensures r.nodes.Keys == Names(p)
  {
  }

  /** Nothing but the address of one target changed. */
  predicate Only(before: Record, after: Record, t: string) {
    && t in before.nodes && t in after.nodes
    && after == before.(nodes := before.nodes[t := before.nodes[t].(address := after.nodes[t].address)])
  }

  predicate Elsewhere(before: Record, after: Record, t: string) {
    t in after.nodes && after == before.(nodes := before.nodes[t := after.nodes[t]])
  }

  /** Nothing but addresses changed. */
  predicate AddressesOnly(before: Record, after: Record) {
    && after.phase == before.phase && after.nodes.Keys == before.nodes.Keys
    && forall t :: t in after.nodes ==> after.nodes[t] == before.nodes[t].(address := after.nodes[t].address)
  }

  predicate AssociatedAll(nodes: map<string, Node>, names: set<string>) {
    forall t :: t in names && t in nodes ==> nodes[t].address.Some? && nodes[t].address.value.phase == Associated
  }

  lemma AddressesStep(before: Record, mid: Record, after: Record, done: set<string>, t: string)
    requires AddressesOnly(before, mid) && AssociatedAll(mid.nodes, done) && Only(mid, after, t)
    requires after.nodes[t].address.Some? && after.nodes[t].address.value.phase == Associated
    ensures AddressesOnly(before, after) && AssociatedAll(after.nodes, done + {t})
  {
  }

  lemma OnlyKeeps(before: Record, after: Record, t: string)
    requires Only(before, after, t)
    ensures t in before.nodes && t in after.nodes && after.nodes[t].phase == before.nodes[t].phase
  {
  }

  lemma OnlyTwice(before: Record, mid: Record, after: Record, t: string)
    requires Only(before, mid, t) && Only(mid, after, t)
    ensures Only(before, after, t) && t in after.nodes
  {
  }

  lemma Unchanged(r: Record)
    ensures AddressesOnly(r, r) && AssociatedAll(r.nodes, {})
  {
  }

  lemma FewerAssociated(nodes: map<string, Node>, done: set<string>, names: set<string>)
    requires AssociatedAll(nodes, done) && names <= done
    ensures AssociatedAll(nodes, names)
  {
  }

  lemma OnlyIsAddresses(before: Record, mid: Record, after: Record, t: string)
    requires AddressesOnly(before, mid) && Only(mid, after, t)
    ensures AddressesOnly(before, after)
  {
  }

  lemma AddressesKeepPhase(before: Record, after: Record, t: string)
    requires AddressesOnly(before, after) && t in before.nodes
    ensures t in after.nodes && after.nodes[t].phase == before.nodes[t].phase
  {
  }

  lemma EntryOf(p: Plan, r: Record, t: string, past: map<string, Past>, absent: set<string>)
    requires Good(p, r, past, absent) && t in r.nodes
    ensures t in past && ValidNode(p, r.nodes[t]) && Remembers(r.nodes[t], past[t], absent)
  {
  }

  lemma StoredIsGood(p: Plan, cell: Cell<Record>, r: Record, past: map<string, Past>, absent: set<string>)
    requires Safe(p, cell, past, absent) && r in cell.Chain()
    ensures Good(p, r, past, absent)
  {
  }

  class Provisioner {
    const p: Plan
    const store: Store<Record>
    const cloud: Cloud
    var r: Record

    constructor (p: Plan, store: Store<Record>, cloud: Cloud)
      ensures this.p == p && this.store == store && this.cloud == cloud
    {
      this.p, this.store, this.cloud := p, store, cloud;
      r := Record(Created, map[]);
    }

    /** The record in hand may be saved. */
    ghost predicate Savable()
      reads this`r, store, cloud
    {
      Tracked(p, store, cloud) && Good(p, r, cloud.past, cloud.absent)
    }

    /** No address was ever released: the fleet may still grow. */
    ghost predicate Growing()
      reads this`r, store, cloud
    {
      Savable() && Untouched(cloud.past) && r.phase == Provisioning && NoneRetiring(r.nodes)
    }

    method Save() returns (reply: Reply)
      requires Savable()
      modifies store
      ensures Savable() && (reply.Done? ==> store.cell == Cell(r, []))
    {
      hide OncePerTarget;
      ghost var before := store.cell;
      reply := store.Save(r);
      SaveStaysSafe(p, before, store.cell, r, cloud.past, cloud.absent);
    }

    method Put(t: string, n: Node)
      requires Growing() && t in r.nodes && ValidNode(p, n) && Remembers(n, cloud.past[t], cloud.absent) && !Retiring(n)
      modifies this`r
      ensures Growing() && r == old(r).(nodes := old(r).nodes[t := n])
    {
      hide OncePerTarget, Good;
      EntryStaysGood(p, r, t, n, cloud.past, cloud.absent);
      r := r.(nodes := r.nodes[t := n]);
    }

    /** Journals one entry, then returns only if it is the stored one. */
    method Commit(t: string, n: Node) returns (reply: Reply)
      requires Growing() && t in r.nodes && ValidNode(p, n) && Remembers(n, cloud.past[t], cloud.absent) && !Retiring(n)
      modifies this`r, store
      ensures Growing() && r == old(r).(nodes := old(r).nodes[t := n])
      ensures reply.Done? ==> store.cell == Cell(r, [])
    {
      hide OncePerTarget, Safe, Good, ValidNode, Remembers;
      Put(t, n);
      reply := Save();
    }

    /** Lists the addresses and checks them against the journal. */
    method Discover(live: map<string, Live>) returns (reply: Reply, seen: map<string, Visible>)
      requires Growing()
      modifies cloud`now, cloud`passEnd, cloud`listed
      ensures Growing()
      ensures reply.Done? ==> AddressesMatch(r, live, seen) && cloud.Reflects(seen)
    {
      hide OncePerTarget, Safe, Good;
      reply, seen := cloud.ListAddresses();
      if reply.Done? && !AddressesMatch(r, live, seen) {
        reply := Failed;
      }
    }

    /** Requests the instance of a target that was never requested before: the
      * intent is the stored record when the request is issued. */
    method Launch(t: string) returns (reply: Reply)
      requires Growing() && t in r.nodes && r.nodes[t].phase == Pending
      modifies this`r, store, cloud`past, cloud`calls
      ensures Growing() && Elsewhere(old(r), r, t)
      ensures reply.Done? ==> r.nodes[t].phase == Present
    {
      hide OncePerTarget, Safe, Good;
      EntryOf(p, r, t, cloud.past, cloud.absent);
      var n := r.nodes[t].(phase := Launching, attempted := true);
      reply := Commit(t, n);
      if !reply.Done? {
        return;
      }
      PastGrows(p, r, t, cloud.past[t].(launched := true), cloud.past, cloud.absent);
      var instance;
      reply, instance := cloud.Run(t);
      StoredIsGood(p, store.cell, r, cloud.past, cloud.absent);
      if !reply.Done? {
        return;
      }
      reply := Commit(t, n.(phase := Present, instance := Some(instance), state := Starting, observed := true));
    }

    /** Updates one entry from a listing. */
    method ReconcileOne(t: string, live: map<string, Live>, wait: bool) returns (ok: bool)
      requires Growing() && t in r.nodes
      modifies this`r
      ensures Growing()
      ensures ok <==> Reconciled(old(r).nodes[t], Found(live, t), wait).Some?
      ensures ok ==> r == old(r).(nodes := old(r).nodes[t := Reconciled(old(r).nodes[t], Found(live, t), wait).value])
    {
      hide OncePerTarget, Safe;
      match Reconciled(r.nodes[t], Found(live, t), wait)
      case None =>
        ok := false;
        if t !in live {
          Put(t, r.nodes[t].(state := Unknown, observed := true));
        }
      case Some(n) =>
        ok := true;
        ReconciledFits(p, r.nodes[t], Found(live, t), wait, cloud.past[t], cloud.absent);
        Put(t, n);
    }

    /** Updates every entry from a listing. An instance nobody journaled, an
      * identity that changed, or, unless waiting for visibility, an intent
      * without an instance stops the run. */
    method Reconcile(live: map<string, Live>, wait: bool) returns (ok: bool)
      requires Growing()
      modifies this`r
      ensures Growing()
      ensures ok ==> r.nodes.Keys == old(r).nodes.Keys
      ensures ok ==> forall t :: t in r.nodes ==> Reconciled(old(r).nodes[t], Found(live, t), wait) == Some(r.nodes[t])
      ensures ok <==> forall t :: t in old(r).nodes ==> Reconciled(old(r).nodes[t], Found(live, t), wait).Some?
    {
      hide OncePerTarget, Growing, Reconciled, Found, Safe, Good, Savable;
      ghost var before, seen := r.nodes, {};
      GrowingNames();
      for i := 0 to |p.targets|
        invariant Growing() && r.nodes.Keys == before.Keys
        invariant forall j :: 0 <= j < |p.targets| ==> (p.targets[j] in seen <==> j < i)
        invariant forall t :: t in before && t !in seen ==> r.nodes[t] == before[t]
        invariant forall t :: t in before && t in seen ==> Reconciled(before[t], Found(live, t), wait) == Some(r.nodes[t])
      {
        var t := p.targets[i];
        assert t in Names(p);
        ok := ReconcileOne(t, live, wait);
        if !ok {
          return;
        }
        seen := seen + {t};
      }
      ok := true;
    }

    /** Journals an allocation intent, or finds that an earlier one may still be
      * in flight. */
    method Intend(t: string, seen: map<string, Visible>) returns (reply: Reply)
      requires Growing() && t in r.nodes && r.nodes[t].phase == Present && p.publicIPv4
      requires cloud.Reflects(seen) && t !in seen && t in cloud.past
      modifies this`r, store, cloud`now
      ensures Growing() && Only(old(r), r, t)
      ensures reply.Done? ==> store.cell == Cell(r, []) && cloud.past[t].accepted.None? && r.nodes[t].address.Some?
      ensures reply.Done? ==> r.nodes[t].address.value.phase == Allocating
      ensures r.nodes[t].phase == Present
    {
      hide OncePerTarget, Safe;
      var n := r.nodes[t];
      var now := cloud.Clock();
      if n.address.Some? && (n.address.value.phase != Allocating || now < n.address.value.attemptedAt + StaleAllocationAfter) {
        return Failed;
      }
      NeverAccepted(n, cloud.past[t], cloud.absent, cloud.passEnd, now);
      now := cloud.Clock();
      reply := Commit(t, n.(address := Some(Address(Allocating, now, None, None))));
    }

    /** Requests one address for a target that has none. Only a refusal that is
      * known to have had no effect clears the intent. */
    method AllocateFor(t: string, live: map<string, Live>, before: map<string, Visible>)
      returns (reply: Reply, seen: map<string, Visible>)
      requires Growing() && t in r.nodes && r.nodes[t].phase == Present && p.publicIPv4
      requires cloud.Reflects(before) && t !in before && t in cloud.past
      modifies this`r, store, cloud`now, cloud`passEnd, cloud`listed, cloud`past, cloud`calls
      ensures Growing() && Only(old(r), r, t) && r.nodes[t].phase == Present
      ensures reply.Done? ==> t in seen && AddressesMatch(r, live, seen) && cloud.Reflects(seen)
    {
      hide OncePerTarget, Safe, Good, ValidNode, Remembers;
      seen := before;
      reply := Intend(t, before);
      if reply.Done? {
        reply := Request(t);
      }
      if reply.Done? {
        reply, seen := Discover(live);
      }
      if reply.Done? && t !in seen {
        reply := Failed;
      }
    }

    /** The request itself, with its intent stored. */
    method Request(t: string) returns (reply: Reply)
      requires Growing() && t in r.nodes && r.nodes[t].phase == Present && t in cloud.past
      requires store.cell == Cell(r, []) && cloud.past[t].accepted.None?
      requires r.nodes[t].address.Some? && r.nodes[t].address.value.phase == Allocating
      modifies this`r, store, cloud`past, cloud`calls
      ensures Growing() && Only(old(r), r, t) && r.nodes[t].phase == Present
    {
      hide OncePerTarget, Safe, Good;
      var n := r.nodes[t];
      var at := n.address.value.attemptedAt;
      EntryOf(p, r, t, cloud.past, cloud.absent);
      PastGrows(p, r, t, cloud.past[t].(accepted := Some(at)), cloud.past, cloud.absent);
      var refused, lease;
      reply, refused, lease := cloud.Allocate(t, at);
      StoredIsGood(p, store.cell, r, cloud.past, cloud.absent);
      EntryOf(p, r, t, cloud.past, cloud.absent);
      if refused {
        reply := Commit(t, n.(address := None));
        if reply.Done? {
          reply := Failed;
        }
      } else if reply.Done? {
        reply := Commit(t, n.(address := Some(n.address.value.(phase := Allocated, lease := Some(lease)))));
      }
    }

    /** Associates a target's address unless it is attached already. */
    method Associate(t: string, live: map<string, Live>, before: map<string, Visible>)
      returns (reply: Reply, seen: map<string, Visible>)
      requires Growing() && t in r.nodes && t in before && cloud.Reflects(before)
      requires AddressMatches(r.nodes[t], Found(live, t), before[t]) && r.nodes[t].address.value.phase != Allocating
      modifies this`r, store, cloud`now, cloud`passEnd, cloud`listed, cloud`past, cloud`calls
      ensures Growing() && Only(old(r), r, t) && r.nodes[t].address.Some?
      ensures reply.Done? ==> t in seen && seen[t].attachment.Some? && cloud.Reflects(seen)
      ensures reply.Done? ==> (seen == before && r == old(r)) || AddressesMatch(r, live, seen)
      ensures reply.Done? ==> AddressMatches(r.nodes[t], Found(live, t), seen[t]) && r.nodes[t].address.value.phase != Allocating
    {
      hide OncePerTarget, Safe, Good;
      seen := before;
      if before[t].attachment.Some? {
        return Done, seen;
      }
      var n := r.nodes[t];
      if n.address.value.phase == Associating {
        return Failed, seen;
      }
      reply := Attach(t);
      if reply.Done? {
        reply, seen := Discover(live);
      }
      if reply.Done? && (t !in seen || seen[t].attachment.None?) {
        reply := Failed;
      }
    }

    /** Requests the association of an allocated address, with its intent stored. */
    method Attach(t: string) returns (reply: Reply)
      requires Growing() && t in r.nodes && r.nodes[t].address.Some? && r.nodes[t].address.value.phase == Allocated
      modifies this`r, store, cloud`past, cloud`calls
      ensures Growing() && Only(old(r), r, t)
      ensures r.nodes[t] == old(r).nodes[t].(address := Some(old(r).nodes[t].address.value.(phase := Associating)))
      ensures forall u :: u in cloud.past && u in old(cloud.past) ==> cloud.past[u].accepted == old(cloud.past)[u].accepted
      ensures cloud.past.Keys == old(cloud.past).Keys
    {
      hide OncePerTarget, Safe, Good;
      EntryOf(p, r, t, cloud.past, cloud.absent);
      var n := r.nodes[t].(address := Some(r.nodes[t].address.value.(phase := Associating)));
      reply := Commit(t, n);
      if !reply.Done? {
        return;
      }
      PastGrows(p, r, t, cloud.past[t].(associated := true), cloud.past, cloud.absent);
      reply := cloud.Associate(t);
      StoredIsGood(p, store.cell, r, cloud.past, cloud.absent);
    }

    /** Adopts the listed address of an allocation whose reply or checkpoint
      * was lost. */
    method Adopt(t: string, lease: Lease) returns (reply: Reply)
      requires Growing() && t in r.nodes && r.nodes[t].address.Some? && r.nodes[t].address.value.phase == Allocating
      modifies this`r, store
      ensures Growing() && Only(old(r), r, t)
      ensures r.nodes[t] == old(r).nodes[t].(address := Some(old(r).nodes[t].address.value.(phase := Allocated, lease := Some(lease))))
    {
      hide OncePerTarget, Safe, Good;
      EntryOf(p, r, t, cloud.past, cloud.absent);
      var a := r.nodes[t].address.value;
      reply := Commit(t, r.nodes[t].(address := Some(a.(phase := Allocated, lease := Some(lease)))));
    }

    method Settle(t: string, association: string) returns (reply: Reply)
      requires Growing() && t in r.nodes && r.nodes[t].address.Some? && r.nodes[t].address.value.phase != Allocating
      modifies this`r, store
      ensures Growing() && Only(old(r), r, t)
      ensures r.nodes[t].address.Some? && r.nodes[t].address.value.phase == Associated
    {
      hide OncePerTarget, Safe, Good;
      EntryOf(p, r, t, cloud.past, cloud.absent);
      var a := r.nodes[t].address.value;
      reply := Commit(t, r.nodes[t].(address := Some(a.(phase := Associated, association := Some(association)))));
    }

    /** Brings one target to an allocated address. */
    method FindAddress(t: string, live: map<string, Live>, before: map<string, Visible>, ghost done: set<string>)
      returns (reply: Reply, seen: map<string, Visible>)
      requires Growing() && t in r.nodes && r.nodes[t].phase == Present && p.publicIPv4 && t in cloud.past
      requires cloud.Reflects(before) && Rest(r, live, before, done) && t !in done
      modifies this`r, store, cloud`now, cloud`passEnd, cloud`listed, cloud`past, cloud`calls
      ensures Growing() && Only(old(r), r, t)
      ensures reply.Done? ==> cloud.Reflects(seen) && Rest(r, live, seen, done) && t in seen
      ensures reply.Done? ==> r.nodes[t].address.Some? && r.nodes[t].address.value.phase != Allocating
    {
      hide OncePerTarget, Growing, AddressMatches, AddressesMatch;
      seen := before;
      reply := Outside();
      if reply.Done? && t !in before {
        reply, seen := AllocateFor(t, live, before);
        if reply.Done? {
          RestMatches(r, live, seen, done);
        }
      }
      if !reply.Done? {
        return;
      }
      RestStep(r, live, seen, done, t);
      MatchedHasAddress(r.nodes[t], Found(live, t), seen[t]);
      if r.nodes[t].address.value.phase == Allocating {
        ghost var r' := r;
        reply := Adopt(t, seen[t].lease);
        AdoptedMatches(r'.nodes[t], Found(live, t), seen[t]);
        RestAdopted(r', r, live, seen, done, t);
      }
    }

    /** Brings one target to an associated address. */
    method EnsureAddress(t: string, live: map<string, Live>, listed: map<string, Visible>, ghost done: set<string>)
      returns (reply: Reply, seen: map<string, Visible>)
      requires Growing() && t in r.nodes && r.nodes[t].phase == Present && p.publicIPv4 && t in cloud.past
      requires cloud.Reflects(listed) && Rest(r, live, listed, done) && t !in done
      modifies this`r, store, cloud`now, cloud`passEnd, cloud`listed, cloud`past, cloud`calls
      ensures Growing() && Only(old(r), r, t)
      ensures reply.Done? ==> cloud.Reflects(seen) && Rest(r, live, seen, done + {t})
      ensures reply.Done? ==> r.nodes[t].address.Some? && r.nodes[t].address.value.phase == Associated
    {
      hide OncePerTarget, Growing, AddressMatches, AddressesMatch, Rest, Only;
      ghost var before := r;
      reply, seen := FindAddress(t, live, listed, done);
      OnlyKeeps(before, r, t);
      if !reply.Done? {
        return;
      }
      RestStep(r, live, seen, done, t);
      ghost var found := r;
      reply, seen := Associate(t, live, seen);
      OnlyTwice(before, found, r, t);
      if !reply.Done? {
        return;
      }
      if AddressesMatch(r, live, seen) {
        RestMatches(r, live, seen, done + {t});
      }
      found := r;
      reply := Settle(t, seen[t].attachment.value.association);
      RestElsewhere(found, r, live, seen, done, t);
      OnlyTwice(before, found, r, t);
    }

    /** Launches every target that never was. */
    method LaunchAll() returns (reply: Reply)
      requires Growing() && forall t :: t in r.nodes ==> r.nodes[t].phase != Launching
      modifies this`r, store, cloud`past, cloud`calls
      ensures Growing()
    {
      hide OncePerTarget, Growing;
      GrowingNames();
      reply := Done;
      for i := 0 to |p.targets|
        invariant Growing() && r.nodes.Keys == Names(p) && reply.Done?
        invariant forall t :: t in r.nodes ==> r.nodes[t].phase != Launching
      {
        var t := p.targets[i];
        assert t in Names(p);
        if r.nodes[t].phase == Pending {
          reply := Outside();
          if reply.Done? {
            reply := Launch(t);
          }
          if !reply.Done? {
            return;
          }
        }
      }
    }

    /** The listed addresses, every primary interface and every public address,
      * before anything is requested. */
    method CheckScope(live: map<string, Live>) returns (reply: Reply, seen: map<string, Visible>)
      requires Growing()
      modifies cloud`now, cloud`passEnd, cloud`listed
      ensures Growing()
      ensures reply.Done? ==> cloud.Reflects(seen) && Rest(r, live, seen, {}) && AllAttachable(live, seen)
      ensures reply.Done? ==> forall t :: t in p.targets ==> HasPrimary(live, t)
    {
      hide OncePerTarget, Growing, AddressesMatch, Rest, Attachable;
      reply, seen := Discover(live);
      if reply.Done? && !AllAttachable(live, seen) {
        reply := Failed;
      }
      if reply.Done? {
        PrimariesFound(live, seen);
        RestMatches(r, live, seen, {});
      }
    }

    /** Brings every target to an associated address, after the whole scope was
      * checked. */
    method EnsureAddresses(live: map<string, Live>) returns (reply: Reply)
      requires Growing() && p.publicIPv4 && AllPresent(r.nodes)
      modifies this`r, store, cloud`now, cloud`passEnd, cloud`listed, cloud`past, cloud`calls
      ensures Growing() && AddressesOnly(old(r), r)
      ensures reply.Done? ==> AssociatedAll(r.nodes, Names(p))
      ensures (exists t :: t in p.targets && !HasPrimary(live, t)) ==>
        !reply.Done? && r == old(r) && store.cell == old(store.cell) && cloud.calls == old(cloud.calls)
    {
      hide OncePerTarget, Growing, AddressesMatch, AddressMatches, Rest, Only, AssociatedAll, AddressesOnly;
      hide HasPrimary, AllAttachable;
      Unchanged(r);
      var seen;
      reply, seen := CheckScope(live);
      if !reply.Done? {
        return;
      }
      GrowingNames();
      ghost var done: set<string> := {};
      for i := 0 to |p.targets|
        invariant Growing() && reply.Done? && AddressesOnly(old(r), r) && AssociatedAll(r.nodes, done)
        invariant cloud.Reflects(seen) && Rest(r, live, seen, done)
        invariant forall j :: 0 <= j < |p.targets| ==> (p.targets[j] in done <==> j < i)
      {
        GrowingNames();
        var t := p.targets[i];
        assert t in Names(p);
        AddressesKeepPhase(old(r), r, t);
        ghost var mid := r;
        reply, seen := EnsureAddress(t, live, seen, done);
        OnlyIsAddresses(old(r), mid, r, t);
        if !reply.Done? {
          return;
        }
        AddressesStep(old(r), mid, r, done, t);
        done := done + {t};
      }
      FewerAssociated(r.nodes, done, Names(p));
    }

    predicate HasPrimary(live: map<string, Live>, t: string) {
      t in live && PrimaryInterface(live[t]).Some?
    }

    /** Every primary interface and public address, before any allocation. */
    predicate AllAttachable(live: map<string, Live>, seen: map<string, Visible>) {
      forall i :: 0 <= i < |p.targets| ==> Attachable(live, seen, p.targets[i])
    }

    lemma PrimariesFound(live: map<string, Live>, seen: map<string, Visible>)
      requires AllAttachable(live, seen)
      ensures forall t :: t in p.targets ==> HasPrimary(live, t)
    {
      assert forall i :: 0 <= i < |p.targets| ==> Attachable(live, seen, p.targets[i]);
    }

    lemma GrowingNames()
      requires Growing()
      ensures r.nodes.Keys == Names(p) == cloud.past.Keys && Distinct(p.targets)
    {
    }

    /** One poll: every target in the listing, and its address, must be in
      * order before the fleet is ready. */
    method Poll() returns (reply: Reply, ready: bool)
      requires Growing()
      modifies this`r, store, cloud`now, cloud`passEnd, cloud`listed, cloud`past, cloud`calls
      ensures Savable() && (!ready ==> Growing())
      ensures reply.Done? && ready ==> store.cell == Cell(r, []) && Equipped(p, r)
      ensures !reply.Done? || !ready || r.phase == ComputeReady
    {
      hide OncePerTarget, Safe, Good, AssociatedAll, AddressesOnly, Reconciled;
      ready := false;
      var live;
      reply, live := cloud.ListInstances();
      if !reply.Done? {
        return;
      }
      ghost var before := r.nodes;
      var ok := Reconcile(live, true);
      if !ok {
        return Failed, false;
      }
      ready := AllRunning(r.nodes);
      if ready {
        RunningIsPresent(before, r.nodes, live);
        if p.publicIPv4 {
          ghost var mid := r;
          reply := EnsureAddresses(live);
          if !reply.Done? {
            ready := false;
            return;
          }
          StillRunning(mid, r);
        }
        GoodNames(p, r, cloud.past, cloud.absent);
        PhaseStaysGood(p, r, ComputeReady, cloud.past, cloud.absent);
        r := r.(phase := ComputeReady);
      }
      reply := Save();
    }

    /** Polls until the fleet is equipped. */
    method Await() returns (reply: Reply)
      requires Growing()
      modifies this`r, store, cloud`now, cloud`passEnd, cloud`listed, cloud`past, cloud`calls
      ensures Savable() && (reply.Done? ==> store.cell == Cell(r, []) && Equipped(p, r))
    {
      hide OncePerTarget, Growing, Savable, Equipped;
      GrowingIsSavable();
      reply := Failed;
      var polls: nat :| true;
      while polls > 0
        invariant Growing() && Savable() && !reply.Done?
      {
        var ready;
        reply, ready := Poll();
        if !reply.Done? || ready {
          return;
        }
        GrowingIsSavable();
        reply := Outside();
        if !reply.Done? {
          return;
        }
        reply := Failed;
        polls := polls - 1;
      }
    }

    /** The whole scope is validated before the first change. */
    method Check() returns (reply: Reply)
      requires Growing()
      modifies this`r, store, cloud`now, cloud`passEnd, cloud`listed
      ensures Growing()
      ensures reply.Done? ==> forall t :: t in r.nodes ==> r.nodes[t].phase != Launching
    {
      hide OncePerTarget, Safe, Good, Untouched;
      var live, seen;
      reply, live := cloud.ListInstances();
      if reply.Done? {
        var ok := Reconcile(live, false);
        if !ok {
          return Failed;
        }
        if p.publicIPv4 {
          reply, seen := Discover(live);
        }
      }
      if reply.Done? {
        reply := Save();
      }
    }

    /** The body of Execute, once the claim is held: a record whose addresses
      * are being released, or were, stops the run before anything changes. */
    method Work() returns (reply: Reply)
      requires Savable()
      modifies this`r, store, cloud`now, cloud`passEnd, cloud`listed, cloud`past, cloud`calls
      ensures Savable()
      ensures old(r.phase == AddressesReleased || !NoneRetiring(r.nodes)) ==>
        reply.Failed? && r == old(r) && cloud.calls == old(cloud.calls) && store.cell == old(store.cell)
      ensures reply.Done? ==> store.cell == Cell(r, []) && Equipped(p, r)
    {
      hide OncePerTarget, Safe, Good, Equipped;
      if r.phase == AddressesReleased || !NoneRetiring(r.nodes) {
        return Failed;
      }
      NoneReleased(p, r, cloud.past, cloud.absent);
      PhaseStaysGood(p, r, Provisioning, cloud.past, cloud.absent);
      r := r.(phase := Provisioning);
      reply := Save();
      if reply.Done? {
        reply := Check();
      }
      if reply.Done? {
        reply := LaunchAll();
      }
      if reply.Done? {
        reply := Await();
      }
    }

    /** One run, from the claim to its release. A run that fails saves the
      * interruption, except on a retired allocation. */
    method Execute() returns (reply: Reply)
      requires Tracked(p, store, cloud)
      modifies this`r, store, cloud`now, cloud`passEnd, cloud`listed, cloud`past, cloud`calls
      ensures Tracked(p, store, cloud)
      ensures reply.Done? ==> store.cell == Cell(r, []) && Equipped(p, r)
    {
      hide OncePerTarget, Safe, Good, Equipped;
      ghost var before := store.cell;
      r := store.Acquire();
      AcquiredIsSafe(p, before, store.cell, cloud.past, cloud.absent);
      reply := Work();
      if reply.Failed? && r.phase != AddressesReleased {
        PhaseStaysGood(p, r, Interrupted, cloud.past, cloud.absent);
        r := r.(phase := Interrupted);
        var saved := Save();
        if saved.Killed? {
          reply := Killed;
        }
      }
    }

    lemma GrowingIsSavable()
      requires Growing()
      ensures Savable()
    {
    }
  }

  lemma AcquiredIsSafe(p: Plan, before: Cell<Record>, after: Cell<Record>, past: map<string, Past>, absent: set<string>)
    requires Safe(p, before, past, absent) && after.unlanded == [] && after.stored in before.Chain()
    ensures Safe(p, after, past, absent) && Good(p, after.stored, past, absent)
  {
  }

  predicate AllRunning(nodes: map<string, Node>) {
    forall t :: t in nodes ==> nodes[t].state == Running
  }

  predicate AllPresent(nodes: map<string, Node>) {
    forall t :: t in nodes ==> nodes[t].phase == Present
  }

  /** The finished fleet: every instance present and running, every address
    * associated. */
  predicate Equipped(p: Plan, r: Record) {
    && r.phase == ComputeReady && r.nodes.Keys == Names(p) && AllRunning(r.nodes) && AllPresent(r.nodes)
    && (p.publicIPv4 ==> AssociatedAll(r.nodes, Names(p)))
  }

  lemma RunningIsPresent(before: map<string, Node>, nodes: map<string, Node>, live: map<string, Live>)
    requires before.Keys == nodes.Keys && AllRunning(nodes)
    requires forall t :: t in nodes ==> Reconciled(before[t], Found(live, t), true) == Some(nodes[t])
    ensures AllPresent(nodes)
  {
  }

  lemma StillRunning(before: Record, after: Record)
    requires AddressesOnly(before, after) && AllRunning(before.nodes) && AllPresent(before.nodes)
    ensures AllRunning(after.nodes) && AllPresent(after.nodes)
  {
  }
}
