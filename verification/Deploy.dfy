/** Deploying a genesis network: whatever the nodes reply, and however often a
  * run is interrupted, the identities of the chain are written once. */
module Deploy {
  import opened Claims
  import opened Wrappers

  /** What the journal knows of one validator; empty until it was observed. */
  datatype Identity = Identity(operatorKey: string, platformId: string, proTx: string)

  const Unknown: Identity := Identity("", "", "")

  datatype Deployment = Deployment(
    planId: string, coreGenesis: string, payout: string, spork: string, genesisHeight: nat, nodes: map<string, Identity>)

  type Record = Option<Deployment>

  datatype Plan = Plan(id: string, targets: seq<string>, validators: seq<string>, coreOnly: bool)

  function At(d: Deployment, t: string): Identity {
    if t in d.nodes then d.nodes[t] else Unknown
  }

  // ------------------------------------------------------------ write once

  predicate KeepsText(a: string, b: string) {
    a != "" ==> b == a
  }

  predicate KeepsIdentity(a: Identity, b: Identity) {
    KeepsText(a.operatorKey, b.operatorKey) && KeepsText(a.platformId, b.platformId) && KeepsText(a.proTx, b.proTx)
  }

  /** No identity that x records differs in y. */
  ghost predicate Keeps(x: Record, y: Record) {
    x.Some? ==>
      && y.Some?
      && var a := x.value; var b := y.value;
      && a.planId == b.planId && KeepsText(a.coreGenesis, b.coreGenesis)
      && KeepsText(a.payout, b.payout) && KeepsText(a.spork, b.spork)
      && (a.genesisHeight != 0 ==> b.genesisHeight == a.genesisHeight)
      && forall t: string :: KeepsIdentity(At(a, t), At(b, t))
  }

  ghost predicate Safe(cell: Cell<Record>) {
    forall i, j :: 0 <= i < j < |cell.Chain()| ==> Keeps(cell.Chain()[i], cell.Chain()[j])
  }

  ghost predicate AllBehind(cell: Cell<Record>, r: Record) {
    forall x :: x in cell.Chain() ==> Keeps(x, r)
  }

  ghost predicate AllAhead(start: Record, cell: Cell<Record>) {
    forall x :: x in cell.Chain() ==> Keeps(start, x)
  }

  lemma KeepsChain(x: Record, y: Record, z: Record)
    requires Keeps(x, y) && Keeps(y, z)
    ensures Keeps(x, z)
  {
    if x.Some? {
      forall t: string ensures KeepsIdentity(At(x.value, t), At(z.value, t)) {
        assert KeepsIdentity(At(x.value, t), At(y.value, t)) && KeepsIdentity(At(y.value, t), At(z.value, t));
      }
    }
  }

  lemma SaveKeepsSafe(cell: Cell<Record>, r: Record, n: nat, start: Record)
    requires Safe(cell) && AllBehind(cell, r) && AllAhead(start, cell) && Keeps(start, r) && n <= |cell.unlanded| + 1
    ensures var after := cell.Attempted(r).Landed(n); Safe(after) && AllBehind(after, r) && AllAhead(start, after)
  {
    hide Keeps;
    var chain := cell.Chain() + [r];
    assert cell.Attempted(r).Chain() == chain;
    var after := chain[n..];
    assert Keeps(r, r) by {
      KeepsItself(r);
    }
    forall i, j | 0 <= i < j < |after| ensures Keeps(after[i], after[j]) {
      assert after[i] == chain[n + i] && after[j] == chain[n + j];
      if n + j < |cell.Chain()| {
        assert Keeps(cell.Chain()[n + i], cell.Chain()[n + j]);
      } else {
        assert chain[n + i] in cell.Chain();
      }
    }
    forall x | x in after ensures Keeps(x, r) && Keeps(start, x) {
      assert x in chain;
      assert x in cell.Chain() || x == r;
    }
  }

  /** Nothing else is or may come to be stored. */
  ghost predicate Only(cell: Cell<Record>, r: Record) {
    forall x :: x in cell.Chain() ==> x == r
  }

  lemma OnlyStays(cell: Cell<Record>, r: Record, n: nat)
    requires Only(cell, r) && n <= |cell.unlanded| + 1
    ensures Only(cell.Attempted(r).Landed(n), r)
  {
    var after := (cell.Chain() + [r])[n..];
    assert cell.Attempted(r).Chain() == cell.Chain() + [r];
    forall x | x in after ensures x == r {
      assert x in cell.Chain() || x == r;
    }
  }

  lemma KeepsItself(r: Record)
    ensures Keeps(r, r)
  {
  }

  lemma BehindStep(cell: Cell<Record>, start: Record, r: Record, r': Record)
    requires AllBehind(cell, r) && Keeps(start, r) && Keeps(r, r')
    ensures AllBehind(cell, r') && Keeps(start, r')
  {
    forall x | x in cell.Chain() ensures Keeps(x, r') {
      KeepsChain(x, r, r');
    }
    KeepsChain(start, r, r');
  }

  // ----------------------------------------------------------- the history

  predicate Identified(i: Identity) {
    i.operatorKey != "" && i.platformId != "" && i.proTx != ""
  }

  /** The chain is known: every identity that Platform is started with. */
  predicate Known(p: Plan, d: Deployment) {
    && d.coreGenesis != "" && d.payout != "" && d.spork != "" && d.genesisHeight != 0
    && forall v :: v in p.validators ==> Identified(At(d, v))
  }

  /** A recorded genesis height means that everything else is recorded. */
  predicate Settled(p: Plan, x: Record) {
    x.Some? && x.value.genesisHeight != 0 ==> Known(p, x.value)
  }

  ghost predicate AllSettled(p: Plan, cell: Cell<Record>) {
    forall x :: x in cell.Chain() ==> Settled(p, x)
  }

  lemma KnownStays(p: Plan, r: Record, d: Deployment)
    requires Settled(p, r) && Keeps(r, Some(d)) && r.Some? && d.genesisHeight == r.value.genesisHeight
    ensures Settled(p, Some(d))
  {
    if d.genesisHeight != 0 {
      forall v | v in p.validators ensures Identified(At(d, v)) {
        assert KeepsIdentity(At(r.value, v), At(d, v));
      }
    }
  }

  lemma SaveStaysSettled(p: Plan, before: Cell<Record>, after: Cell<Record>, r: Record)
    requires AllSettled(p, before) && Settled(p, r)
    requires forall x :: x in after.Chain() ==> x in before.Chain() || x == r
    ensures AllSettled(p, after)
  {
  }

  /** A request to start Platform on one validator: the identities it carries,
    * and the journal at that moment. */
  datatype Start = Start(target: string, sent: Deployment, cell: Cell<Record>)

  /** Whatever is or may come to be stored agrees with the request. */
  ghost predicate Allowed(p: Plan, s: Start) {
    Known(p, s.sent) && Only(s.cell, Some(s.sent))
  }

  class Hosts {
    const store: Store<Record>
    ghost var starts: seq<Start>
    ghost var answered: set<string>    // the validators that answered a start, in this stage

    constructor (store: Store<Record>)
      ensures this.store == store && starts == []
    {
      this.store, starts, answered := store, [], {};
    }

    ghost method BeginStage()
      modifies `answered
      ensures answered == {}
    {
      answered := {};
    }

    method PlatformStart(t: string, d: Deployment) returns (reply: Reply)
      modifies this
      ensures starts == old(starts) + [Start(t, d, store.cell)]
      ensures answered == if reply.Done? then old(answered) + {t} else old(answered)
    {
      starts := starts + [Start(t, d, store.cell)];
      reply := Outside();
      if reply.Done? {
        answered := answered + {t};
      }
    }

    /** A call that observes something: any text, or none. */
    method Observe() returns (reply: Reply, text: string)
    {
      text := *;
      reply := Outside();
    }
  }

  /** What an observation may not change. */
  predicate Unchanged(previous: string, actual: string) {
    actual != "" && (previous == "" || previous == actual)
  }

  class Execution {
    const p: Plan
    const store: Store<Record>
    const hosts: Hosts
    var r: Record
    ghost var start: Record

    constructor (p: Plan, hosts: Hosts)
      ensures this.p == p && this.store == hosts.store && this.hosts == hosts
    {
      this.p, this.store, this.hosts := p, hosts.store, hosts;
      r, start := None, None;
    }

    ghost predicate Always()
      reads store, hosts
    {
      && store == hosts.store && Safe(store.cell) && AllSettled(p, store.cell)
      && forall i :: 0 <= i < |hosts.starts| ==> Allowed(p, hosts.starts[i])
    }

    ghost predicate Savable()
      reads this, store, hosts
    {
      && Always() && r.Some? && r.value.planId == p.id && Settled(p, r)
      && AllBehind(store.cell, r) && AllAhead(start, store.cell) && Keeps(start, r)
    }

    method Save() returns (reply: Reply)
      requires Savable()
      modifies store
      ensures Savable() && (reply.Done? ==> store.cell == Cell(r, []))
      ensures old(Only(store.cell, r)) ==> Only(store.cell, r)
    {
      hide Keeps, Allowed, Only, Safe, AllBehind, AllAhead, AllSettled, Settled;
      ghost var before := store.cell;
      reply := store.Save(r);
      ghost var n: nat :| n <= |before.unlanded| + 1 && store.cell == before.Attempted(r).Landed(n);
      SaveKeepsSafe(before, r, n, start);
      SaveStaysSettled(p, before, store.cell, r);
      if Only(before, r) {
        OnlyStays(before, r, n);
      }
    }

    method Put(d: Deployment) returns (reply: Reply)
      requires Savable() && Keeps(r, Some(d)) && d.planId == p.id
      requires d.genesisHeight == r.value.genesisHeight || Known(p, d)
      modifies this`r, store
      ensures Savable() && r == Some(d) && (reply.Done? ==> store.cell == Cell(r, []))
    {
      hide Keeps, Allowed, Safe, Known, AllSettled;
      BehindStep(store.cell, start, r, Some(d));
      if d.genesisHeight == r.value.genesisHeight {
        KnownStays(p, r, d);
      }
      r := Some(d);
      reply := Save();
    }

    /** Core's answer on every target, in any order: the first genesis is kept
      * and every other one must agree. A failed node or save does not stop the
      * others. */
    method EachCore() returns (reply: Reply)
      requires Savable()
      modifies this`r, store
      ensures Savable() && r.value == old(r).value.(coreGenesis := r.value.coreGenesis)
      ensures reply.Done? && p.targets != [] ==> r.value.coreGenesis != ""
    {
      hide Keeps, Allowed, Safe, AllSettled, Known;
      var rest := set t | t in p.targets;
      reply := Done;
      while rest != {}
        invariant Savable() && !reply.Killed?
        invariant r.value == old(r).value.(coreGenesis := r.value.coreGenesis)
        invariant reply.Done? && p.targets != [] ==> r.value.coreGenesis != "" || p.targets[0] in rest
      {
        var t: string :| t in rest;
        rest := rest - {t};
        var answer, genesis := hosts.Observe();
        var d := r.value;
        if answer.Done? && |genesis| == 64 && Unchanged(d.coreGenesis, genesis) {
          d := d.(coreGenesis := genesis);
        } else {
          reply := Failed;
        }
        GenesisKeeps(r, d);
        var saved := Put(d);
        if !saved.Done? {
          reply := saved;
        }
        if reply.Killed? {
          return;
        }
      }
    }

    /** The wallet's public addresses. */
    method Wallet() returns (reply: Reply)
      requires Savable()
      modifies this`r, store
      ensures Savable() && r.value == old(r).value.(payout := r.value.payout, spork := r.value.spork)
      ensures reply.Done? ==> r.value.payout != "" && r.value.spork != ""
    {
      hide Keeps, Allowed, Safe, AllSettled, Known;
      var payout, spork;
      reply, payout := hosts.Observe();
      if reply.Done? {
        reply, spork := hosts.Observe();
      }
      if !reply.Done? {
        return;
      }
      if !Unchanged(r.value.payout, payout) || !Unchanged(r.value.spork, spork) {
        return Failed;
      }
      WalletKeeps(r, payout, spork);
      reply := Put(r.value.(payout := payout, spork := spork));
    }

    /** The operator key and Platform identity of every validator, in any order. */
    method EachIdentity() returns (reply: Reply)
      requires Savable()
      modifies this`r, store
      ensures Savable() && r.value == old(r).value.(nodes := r.value.nodes)
      ensures reply.Done? ==> forall v :: v in p.validators ==> At(r.value, v).operatorKey != "" && At(r.value, v).platformId != ""
    {
      hide Keeps, Allowed, Safe, AllSettled, Known, At;
      var rest := set v | v in p.validators;
      reply := Done;
      while rest != {}
        invariant Savable() && !reply.Killed? && r.value == old(r).value.(nodes := r.value.nodes)
        invariant reply.Done? ==> forall v :: v in p.validators && v !in rest ==>
          At(r.value, v).operatorKey != "" && At(r.value, v).platformId != ""
      {
        var t: string :| t in rest;
        rest := rest - {t};
        var answer, key := hosts.Observe();
        var second, platform := hosts.Observe();
        var i := At(r.value, t);
        if answer.Done? && second.Done? && |key| == 96 && |platform| == 40
           && Unchanged(i.operatorKey, key) && Unchanged(i.platformId, platform) {
          i := i.(operatorKey := key, platformId := platform);
        } else {
          reply := Failed;
        }
        var saved := PutIdentity(t, i);
        if !saved.Done? {
          reply := saved;
        }
        if reply.Killed? {
          return;
        }
      }
    }

    method PutIdentity(t: string, i: Identity) returns (reply: Reply)
      requires Savable() && KeepsIdentity(At(r.value, t), i)
      modifies this`r, store
      ensures Savable() && r.value == old(r).value.(nodes := r.value.nodes)
      ensures At(r.value, t) == i && forall u :: u != t ==> At(r.value, u) == At(old(r).value, u)
      ensures reply.Done? ==> store.cell == Cell(r, [])
    {
      hide Keeps, Allowed, Safe, AllSettled, Known;
      IdentityKeeps(r, t, i);
      reply := Put(r.value.(nodes := r.value.nodes[t := i]));
    }

    /** Registers the validators one after another on the one wallet. */
    method Register() returns (reply: Reply)
      requires Savable()
      requires forall v :: v in p.validators ==> At(r.value, v).operatorKey != "" && At(r.value, v).platformId != ""
      modifies this`r, store
      ensures Savable() && r.value == old(r).value.(nodes := r.value.nodes)
      ensures reply.Done? ==> forall v :: v in p.validators ==> Identified(At(r.value, v))
    {
      hide Keeps, Allowed, Safe, AllSettled, Known, At;
      reply := Done;
      for k := 0 to |p.validators|
        invariant Savable() && reply.Done? && r.value == old(r).value.(nodes := r.value.nodes)
        invariant forall v :: v in p.validators ==> At(r.value, v).operatorKey != "" && At(r.value, v).platformId != ""
        invariant forall j :: 0 <= j < k ==> At(r.value, p.validators[j]).proTx != ""
      {
        var t := p.validators[k];
        var i, proTx := At(r.value, t), "";
        reply, proTx := hosts.Observe();
        if !reply.Done? {
          return;
        }
        if |proTx| != 64 || !Unchanged(i.proTx, proTx) {
          return Failed;
        }
        reply := PutIdentity(t, i.(proTx := proTx));
        if !reply.Done? {
          return;
        }
      }
    }

    /** Journals the chain lock all targets reached, once. */
    method Genesis() returns (reply: Reply)
      requires Savable() && Known(p, r.value.(genesisHeight := 1))
      modifies this`r, store
      ensures Savable() && r.value == old(r).value.(genesisHeight := r.value.genesisHeight)
      ensures reply.Done? ==> Known(p, r.value)
    {
      hide Keeps, Allowed, Safe, AllSettled;
      reply := Outside();
      var lowest: nat := *;
      if reply.Done? && lowest == 0 {
        reply := Failed;
      }
      if reply.Done? && r.value.genesisHeight == 0 {
        HeightKeeps(r, lowest);
        reply := Put(r.value.(genesisHeight := lowest));
      }
    }

    /** Starts Platform on every validator, in any order, while only the record
      * that was sent is or may come to be stored. */
    method EachPlatform() returns (reply: Reply)
      requires Savable() && store.cell == Cell(r, []) && Known(p, r.value)
      modifies store, hosts
      ensures Savable() && (reply.Done? ==> forall v :: v in p.validators ==> v in hosts.answered)
    {
      hide Keeps, Safe, AllBehind, AllAhead, Known;
      hosts.BeginStage();
      var rest := set v | v in p.validators;
      reply := Done;
      while rest != {}
        invariant Savable() && !reply.Killed? && Only(store.cell, r)
        invariant reply.Done? ==> forall v :: v in p.validators ==> v in hosts.answered || v in rest
      {
        var t: string :| t in rest;
        rest := rest - {t};
        var answer := hosts.PlatformStart(t, r.value);
        if !answer.Done? {
          reply := Failed;
        }
        var saved := Save();
        if !saved.Done? {
          reply := saved;
        }
        if reply.Killed? {
          return;
        }
      }
    }

    /** The stages of a deployment; a Core-only one stops before Platform. */
    method Run() returns (reply: Reply)
      requires Savable() && p.targets != []
      modifies this`r, store, hosts
      ensures Savable() && (reply.Done? && !p.coreOnly ==> store.cell == Cell(r, []) && Known(p, r.value))
      ensures reply.Done? && !p.coreOnly ==> forall v :: v in p.validators ==> v in hosts.answered
    {
      hide Keeps, Allowed, Safe, AllBehind, AllAhead, Identified, AllSettled;
      reply := Save();
      if reply.Done? {
        reply := EachCore();
      }
      if reply.Done? {
        reply := Wallet();
      }
      if reply.Done? {
        reply := EachIdentity();
      }
      if reply.Done? {
        reply := EachCore();
      }
      if reply.Done? {
        reply := Register();
      }
      if reply.Done? {
        reply := EachCore();
      }
      if !reply.Done? || p.coreOnly {
        return;
      }
      reply := Genesis();
      if reply.Done? {
        reply := Save();
      }
      if reply.Done? {
        reply := EachPlatform();
      }
      if reply.Done? {
        reply := Save();
      }
    }

    /** One run, from the claim to its release: a different deployment is
      * refused, a fleet past genesis that is healthy already is only confirmed,
      * and a failed run saves the interruption. */
    method Execute() returns (reply: Reply)
      requires Always() && p.targets != []
      modifies this`r, this`start, store, hosts
      ensures Always()
      ensures start in old(store.cell).Chain() && AllAhead(start, store.cell)
      ensures reply.Done? && !p.coreOnly ==> store.cell == Cell(r, []) && r.Some? && Known(p, r.value)
    {
      hide Keeps, Allowed, AllSettled, Known;
      ghost var before := store.cell;
      r := store.Acquire();
      start := r;
      AcquiredIsSafe(before, store.cell);
      AcquiredIsSettled(p, before, store.cell);
      if r.Some? && r.value.planId != p.id {
        return Failed;
      }
      if r.None? {
        FirstKeeps(r, Deployment(p.id, "", "", "", 0, map[]));
        r := Some(Deployment(p.id, "", "", "", 0, map[]));
      }
      reply := Save();
      var healthy: bool := *;
      if reply.Done? && !(healthy && r.value.genesisHeight != 0) {
        reply := Run();
      }
      if !reply.Killed? {
        var saved := Save();
        if !saved.Done? {
          reply := saved;
        }
      }
    }
  }

  lemma GenesisKeeps(r: Record, d: Deployment)
    requires r.Some? && d == r.value.(coreGenesis := d.coreGenesis) && KeepsText(r.value.coreGenesis, d.coreGenesis)
    ensures Keeps(r, Some(d))
  {
  }

  lemma WalletKeeps(r: Record, payout: string, spork: string)
    requires r.Some? && Unchanged(r.value.payout, payout) && Unchanged(r.value.spork, spork)
    ensures Keeps(r, Some(r.value.(payout := payout, spork := spork)))
  {
  }

  /** One entry changes and loses nothing. */
  lemma IdentityKeeps(r: Record, t: string, i: Identity)
    requires r.Some? && KeepsIdentity(At(r.value, t), i)
    ensures Keeps(r, Some(r.value.(nodes := r.value.nodes[t := i])))
  {
  }

  lemma HeightKeeps(r: Record, height: nat)
    requires r.Some? && r.value.genesisHeight == 0
    ensures Keeps(r, Some(r.value.(genesisHeight := height)))
  {
  }

  lemma FirstKeeps(r: Record, d: Deployment)
    requires r.None?
    ensures Keeps(r, Some(d))
  {
  }

  lemma AcquiredIsSafe(before: Cell<Record>, after: Cell<Record>)
    requires Safe(before) && after.unlanded == [] && after.stored in before.Chain()
    ensures Safe(after) && AllBehind(after, after.stored) && AllAhead(after.stored, after) && Keeps(after.stored, after.stored)
  {
    KeepsItself(after.stored);
  }

  lemma AcquiredIsSettled(p: Plan, before: Cell<Record>, after: Cell<Record>)
    requires AllSettled(p, before) && after.unlanded == [] && after.stored in before.Chain()
    ensures AllSettled(p, after) && Settled(p, after.stored)
  {
  }

  // -------------------------------------------------------- main theorems

  /** Any number of runs of one plan, each ending in any way: no identity of the
    * record that is stored now ever changes, and Platform is started only while
    * every identity it is started with is committed. */
  method AllRuns(p: Plan, hosts: Hosts, runs: nat)
    requires Safe(hosts.store.cell) && AllSettled(p, hosts.store.cell) && p.targets != [] && hosts.store.cell.unlanded == []
    requires forall i :: 0 <= i < |hosts.starts| ==> Allowed(p, hosts.starts[i])
    modifies hosts.store, hosts
    ensures Safe(hosts.store.cell) && AllSettled(p, hosts.store.cell) && AllAhead(old(hosts.store.cell).stored, hosts.store.cell)
    ensures forall i :: 0 <= i < |hosts.starts| ==> Allowed(p, hosts.starts[i])
  {
    hide Keeps, Allowed, Safe, AllSettled;
    ghost var first := hosts.store.cell.stored;
    KeepsItself(first);
    for k := 0 to runs
      invariant Safe(hosts.store.cell) && AllSettled(p, hosts.store.cell) && AllAhead(first, hosts.store.cell)
      invariant forall i :: 0 <= i < |hosts.starts| ==> Allowed(p, hosts.starts[i])
    {
      var e := new Execution(p, hosts);
      ghost var before := hosts.store.cell;
      var reply := e.Execute();
      forall x | x in hosts.store.cell.Chain() ensures Keeps(first, x) {
        KeepsChain(first, e.start, x);
      }
    }
  }

  /** Once recorded, an identity is in every record that follows. */
  lemma WrittenOnce(cell: Cell<Record>, i: nat, j: nat, t: string)
    requires Safe(cell) && i < j < |cell.Chain()| && cell.Chain()[i].Some?
    ensures cell.Chain()[j].Some?
    ensures var a, b := cell.Chain()[i].value, cell.Chain()[j].value;
      && (a.coreGenesis != "" ==> b.coreGenesis == a.coreGenesis)
      && (a.payout != "" ==> b.payout == a.payout) && (a.spork != "" ==> b.spork == a.spork)
      && (a.genesisHeight != 0 ==> b.genesisHeight == a.genesisHeight)
      && (At(a, t).operatorKey != "" ==> At(b, t).operatorKey == At(a, t).operatorKey)
      && (At(a, t).platformId != "" ==> At(b, t).platformId == At(a, t).platformId)
      && (At(a, t).proTx != "" ==> At(b, t).proTx == At(a, t).proTx)
  {
    assert Keeps(cell.Chain()[i], cell.Chain()[j]);
    assert KeepsIdentity(At(cell.Chain()[i].value, t), At(cell.Chain()[j].value, t));
  }
}
