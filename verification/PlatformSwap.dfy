/** Moving one validator to the target release's Platform: Compose recreates
  * exactly the services whose rendered configuration changed, and Tenderdash is
  * down around Drive's replacement. A marker on the host is saved before each
  * step, so a lost reply or an interrupted run is reconciled by the next one. */
module PlatformSwap {
  import opened Claims
  import opened UpgradeRecord
  import opened Wrappers

  /** A container: its identity, the fingerprint of the render it runs, and how
    * often it restarted by itself since it was last started on command. */
  datatype Unit = Unit(id: nat, render: string, running: bool, restarts: nat) {

    function Switched(on: bool): Unit {
      this.(running := on, restarts := if on then 0 else restarts)
    }
  }

  /** A container as it was recorded before a rollout. */
  datatype Baseline = Baseline(id: nat, restarts: nat)

  type Units = map<Service, Unit>

  /** The rollout on this node: the fingerprints the render asks for, and the
    * containers the rollout recorded before it began. */
  datatype Change = Change(id: string, previousId: string, desired: map<Service, string>, preserve: map<Service, Baseline>)

  datatype Dependency = Pending | StopRequested | Stopped | StartRequested | Started

  datatype Marker = Marker(change: Change, changes: set<Service>, applied: bool, dependency: Dependency) {

    /** Tenderdash is drained when Drive changes. */
    predicate Drain() {
      DriveAbci in changes
    }

    predicate Starting() {
      dependency == StartRequested || dependency == Started
    }

    /** The services brought up at once; a drained Tenderdash waits for Drive. */
    function Immediate(): set<Service> {
      if Drain() then changes - {DriveTenderdash} else changes
    }
  }

  predicate Converged(m: Marker, us: Units, s: Service) {
    s in m.change.desired && s in us && us[s].render == m.change.desired[s]
  }

  predicate ConvergedAll(m: Marker, us: Units, services: set<Service>) {
    forall s :: s in services ==> Converged(m, us, s)
  }

  /** What the marker says of the node. */
  predicate Fits(m: Marker, us: Units, created: set<Service>) {
    && m.changes <= m.change.desired.Keys && created <= m.changes
    && ConvergedAll(m, us, m.change.desired.Keys - m.changes) && ConvergedAll(m, us, created)
    && (m.Starting() ==> m.Drain() && ConvergedAll(m, us, m.Immediate()))
  }

  // ----------------------------------------------------------- the history

  datatype Act = Stop(service: Service) | Remove(service: Service) | Create(service: Service) | Start(service: Service)

  datatype Event = Event(turn: nat, act: Act, tenderdashUp: bool, listenerSeen: bool, marker: Marker)

  predicate Allowed(e: Event) {
    && !e.marker.applied
    && (e.act.service in e.marker.changes || (e.act.service == DriveTenderdash && e.marker.Drain() && !e.act.Remove? && !e.act.Create?))
    && (e.act.Stop? ==> e.act.service == DriveTenderdash && e.marker.dependency == StopRequested)
    && (e.act == Remove(DriveAbci) || e.act == Create(DriveAbci) ==> !e.tenderdashUp)
    && (e.act == Start(DriveTenderdash) && e.marker.Drain() ==> e.listenerSeen)
  }

  predicate CreatedOnce(log: seq<Event>) {
    forall i, j :: 0 <= i < j < |log| && log[i].act.Create? && log[i].act == log[j].act ==> log[i].turn != log[j].turn
  }

  ghost predicate History(log: seq<Event>, turn: nat, created: set<Service>) {
    && (forall i :: 0 <= i < |log| ==> Allowed(log[i]) && log[i].turn <= turn)
    && (forall i :: 0 <= i < |log| && log[i].act.Create? && log[i].turn == turn ==> log[i].act.service in created)
    && CreatedOnce(log)
  }

  lemma Recorded(log: seq<Event>, turn: nat, created: set<Service>, e: Event)
    requires History(log, turn, created) && Allowed(e) && e.turn == turn
    requires e.act.Create? ==> e.act.service !in created
    ensures History(log + [e], turn, if e.act.Create? then created + {e.act.service} else created)
  {
  }

  predicate Kept(a: Unit, b: Unit) {
    a.id == b.id && a.render == b.render
  }

  predicate HeldDown(us: Units, held: set<Service>) {
    forall s :: s in us && s in held ==> !us[s].running
  }

  /** Containers crash and restart, except those stopped on command. */
  predicate Drifted(a: Units, b: Units, held: set<Service>) {
    a.Keys == b.Keys && HeldDown(b, held) && forall s :: s in a ==> Kept(a[s], b[s])
  }

  lemma DriftHolds(m: Option<Marker>, a: Units, b: Units, held: set<Service>)
    requires Drifted(a, b, held)
    ensures HeldDown(b, held) && a.Keys == b.Keys
    ensures m.Some? ==> forall s :: Converged(m.value, b, s) <==> Converged(m.value, a, s)
  {
  }

  lemma StillDrifted(us: Units, held: set<Service>)
    requires HeldDown(us, held)
    ensures Drifted(us, us, held)
  {
  }

  lemma Loosen(a: Units, b: Units, held: set<Service>)
    requires Drifted(a, b, held)
    ensures Drifted(a, b, {})
  {
  }

  lemma FewerHeldDown(us: Units, s: Service, held: set<Service>)
    requires HeldDown(us, held)
    ensures HeldDown(us - {s}, held)
  {
  }

  lemma MoreHeldDown(us: Units, s: Service, u: Unit, held: set<Service>)
    requires HeldDown(us, held) && !u.running
    ensures HeldDown(us[s := u], held)
  {
  }

  lemma SwitchDrifts(a: Units, us: Units, held: set<Service>, s: Service, running: bool, held': set<Service>)
    requires Drifted(a, us, held) && s in us && held' == if running then held - {s} else held + {s}
    ensures HeldDown(us[s := us[s].Switched(running)], held')
    ensures Drifted(us, us[s := us[s].Switched(running)], {}) && Drifted(a, us[s := us[s].Switched(running)], {})
  {
  }

  lemma DriftFits(m: Marker, a: Units, b: Units, held: set<Service>, created: set<Service>)
    requires Fits(m, a, created) && Drifted(a, b, held)
    ensures Fits(m, b, created)
  {
  }

  lemma RemovedFits(m: Marker, us: Units, created: set<Service>, s: Service)
    requires Fits(m, us, created) && s in m.changes && !Converged(m, us, s)
    ensures Fits(m, us - {s}, created)
  {
  }

  lemma CreatedFits(m: Marker, us: Units, created: set<Service>, s: Service, u: Unit)
    requires Fits(m, us, created) && s in m.changes && s !in us && u.render == m.change.desired[s]
    ensures Fits(m, us[s := u], created + {s})
  {
  }

  class Node {
    var calm: bool      // nothing fails and nobody else acts
    var units: Units
    var held: set<Service>
    var marker: Option<Marker>
    var listenerSeen: bool
    ghost var turn: nat
    ghost var created: set<Service>
    ghost var log: seq<Event>

    ghost predicate Orderly()
      reads this
    {
      && History(log, turn, created)
      && (marker.Some? && !marker.value.applied ==> Fits(marker.value, units, created))
      && HeldDown(units, held)
    }

    predicate TenderdashDown()
      reads this
    {
      DriveTenderdash in held || DriveTenderdash !in units
    }

    constructor (units: Units)
      ensures Orderly() && log == [] && marker == None && this.units == units
    {
      this.units := units;
      calm, held, marker, listenerSeen := false, {}, None, false;
      turn, created, log := 0, {}, [];
    }

    method Drift()
      requires Orderly()
      modifies `units
      ensures Orderly() && Drifted(old(units), units, held)
      ensures calm ==> units == old(units)
    {
      hide Fits, History, HeldDown, Drifted;
      StillDrifted(units, held);
      if !calm {
        var now: Units :| Drifted(units, now, held);
        DriftHolds(marker, units, now, held);
        if marker.Some? && !marker.value.applied {
          DriftFits(marker.value, units, now, held, created);
        }
        units := now;
        assert marker.Some? && !marker.value.applied ==> Fits(marker.value, units, created);
      }
    }

    /** An acknowledgement may be lost, and the run may die with it. */
    method Answered(acted: bool) returns (reply: Reply)
      ensures (reply.Done? ==> acted) && (calm && acted ==> reply.Done?)
    {
      reply := Claims.Answered(acted);
      if calm && acted {
        reply := Done;
      }
    }

    /** Reads and checks that change nothing, and may fail. */
    method Ask() returns (reply: Reply)
      ensures calm ==> reply.Done?
    {
      reply := Answered(true);
    }

    /** Between runs anything may start or stop, and once an operation is
      * applied others may change the containers. */
    method Meanwhile()
      requires Orderly()
      modifies `units, `held, `listenerSeen, `calm
      ensures Orderly() && !listenerSeen
    {
      held, listenerSeen, calm := {}, false, false;
      if marker.None? || marker.value.applied {
        units := *;
      }
      Drift();
      calm := *;
    }

    ghost predicate May(act: Act)
      reads this
    {
      && Orderly() && marker.Some? && !marker.value.applied
      && Allowed(Event(turn, act, !TenderdashDown(), listenerSeen, marker.value))
      && (act.Create? ==> act.service !in created)
    }

    ghost method Record(act: Act)
      requires May(act)
      modifies `log, `created
      ensures History(log, turn, created) && old(log) <= log
      ensures created == if act.Create? then old(created) + {act.service} else old(created)
    {
      hide Fits;
      var up := DriveTenderdash in units && units[DriveTenderdash].running;
      var e := Event(turn, act, up, listenerSeen, marker.value);
      assert up ==> !TenderdashDown();
      Recorded(log, turn, created, e);
      log := log + [e];
      if act.Create? {
        created := created + {act.service};
      }
    }

    /** Stops or starts one container, if there is one. */
    method Switch(s: Service, running: bool) returns (reply: Reply)
      requires May(if running then Start(s) else Stop(s))
      modifies `units, `held, `log, `created
      ensures Orderly() && old(log) <= log && created == old(created) && Drifted(old(units), units, {})
      ensures old(held) - (if running then {s} else {}) <= held
      ensures reply.Done? ==> s in units && (s in held <==> !running)
      ensures calm ==> (reply.Done? <==> s in old(units))
      ensures calm && s in old(units) ==> units == old(units)[s := old(units)[s].Switched(running)]
    {
      hide Fits, History, Allowed, HeldDown, Drifted;
      Drift();
      DriftHolds(marker, old(units), units, held);
      Loosen(old(units), units, held);
      var acts: bool := *;
      acts := (acts || calm) && s in units;
      if acts {
        Record(if running then Start(s) else Stop(s));
        ghost var before := units;
        ghost var held' := if running then held - {s} else held + {s};
        SwitchDrifts(old(units), units, held, s, running, held');
        units := units[s := units[s].Switched(running)];
        held := if running then held - {s} else held + {s};
        DriftFits(marker.value, before, units, {}, created);
      }
      reply := Answered(acts);
    }

    /** Compose removes the old container of a service and creates the new one
      * from the installed render; it may end after either. */
    method RemoveUnit(s: Service) returns (reply: Reply)
      requires May(Remove(s)) && s in marker.value.changes && !Converged(marker.value, units, s)
      modifies `units, `log, `created
      ensures Orderly() && old(log) <= log && created == old(created) && units.Keys <= old(units).Keys
      ensures reply.Done? ==> s !in units
      ensures calm && s in old(units) ==> reply.Done? && units == old(units) - {s}
    {
      hide Fits, History, Allowed, HeldDown, Drifted;
      Drift();
      DriftHolds(marker, old(units), units, held);
      var acts: bool := *;
      acts := acts || calm;
      if acts && s in units {
        Record(Remove(s));
        RemovedFits(marker.value, units, created, s);
        FewerHeldDown(units, s, held);
        units := units - {s};
      }
      reply := Answered(acts);
    }

    method CreateUnit(s: Service) returns (reply: Reply)
      requires May(Create(s)) && s in marker.value.changes && s !in units && s in marker.value.change.desired
      modifies `units, `log, `created
      ensures Orderly() && old(log) <= log && units.Keys <= old(units).Keys + {s}
      ensures reply.Done? ==> Converged(marker.value, units, s)
      ensures calm ==> reply.Done? && units == old(units)[s := units[s]]
    {
      hide Fits, History, Allowed, HeldDown, Drifted;
      Drift();
      DriftHolds(marker, old(units), units, held);
      var acts: bool := *;
      acts := acts || calm;
      if acts {
        Record(Create(s));
        var id: nat :| true;
        var u := Unit(id, marker.value.change.desired[s], false, 0);
        CreatedFits(marker.value, units, old(created), s, u);
        MoreHeldDown(units, s, u, held);
        units := units[s := u];
      }
      reply := Answered(acts);
    }

    method Open(m: Marker) returns (reply: Reply)
      requires Orderly() && !m.applied && Fits(m, units, {}) && (marker.Some? ==> marker.value.applied)
      modifies `marker, `turn, `created
      ensures Orderly() && (marker == old(marker) || marker == Some(m))
      ensures reply.Done? ==> marker == Some(m)
      ensures calm ==> reply.Done?
    {
      hide Fits;
      var acts: bool := *;
      acts := acts || calm;
      if acts {
        marker, turn, created := Some(m), turn + 1, {};
      }
      reply := Answered(acts);
    }

    method Save(m: Marker) returns (reply: Reply)
      requires Orderly() && (!m.applied ==> Fits(m, units, created))
      modifies `marker
      ensures Orderly() && (marker == old(marker) || marker == Some(m))
      ensures reply.Done? ==> marker == Some(m)
      ensures calm ==> reply.Done?
    {
      hide Fits, History;
      var acts: bool := *;
      acts := acts || calm;
      if acts {
        marker := Some(m);
      }
      reply := Answered(acts);
    }

    method Listen() returns (reply: Reply)
      modifies `listenerSeen
      ensures reply.Done? ==> listenerSeen
      ensures calm ==> reply.Done?
    {
      listenerSeen := *;
      listenerSeen := listenerSeen || calm;
      reply := Answered(listenerSeen);
    }
  }
  /** The services the render would change. */
  function Changed(desired: map<Service, string>, us: Units): set<Service> {
    set s | s in desired && !(s in us && us[s].render == desired[s])
  }

  lemma BegunFits(c: Change, us: Units)
    ensures Fits(Marker(c, Changed(c.desired, us), false, Pending), us, {})
  {
  }

  lemma DependencyFits(m: Marker, us: Units, created: set<Service>, dependency: Dependency)
    requires Fits(m, us, created)
    requires dependency == StartRequested || dependency == Started ==> m.Drain() && ConvergedAll(m, us, m.Immediate())
    ensures Fits(m.(dependency := dependency), us, created)
  {
  }

  lemma ImmediateIsSplit(m: Marker)
    ensures m.Immediate() <= m.changes
    ensures m.Drain() ==> DriveTenderdash !in m.Immediate()
    ensures DriveAbci in m.Immediate() ==> m.Drain()
  {
  }

  lemma UnconvergedIsNew(m: Marker, us: Units, created: set<Service>, s: Service)
    requires Fits(m, us, created) && s in m.changes
    ensures s in m.change.desired && (!Converged(m, us, s) ==> s !in created)
  {
  }

  lemma StartingIsConverged(m: Marker, us: Units, created: set<Service>)
    requires Fits(m, us, created) && m.Starting()
    ensures m.Drain() && ConvergedAll(m, us, m.Immediate()) && Converged(m, us, DriveAbci)
  {
    assert DriveAbci in m.Immediate();
  }

  // ---------------------------------------------- runs in which nothing fails

  predicate SwitchedOnly(a: Units, b: Units, s: Service, on: bool) {
    s in a && b == a[s := a[s].Switched(on)]
  }

  /** Some services came up on the render; nothing else changed. */
  predicate UpOnly(m: Marker, a: Units, b: Units, services: set<Service>) {
    && (forall s :: s in services ==> s in b && b[s].running && Converged(m, b, s))
    && a - services == b - services
  }

  lemma Untouched(a: Units, b: Units, services: set<Service>, s: Service)
    requires a - services == b - services && s !in services
    ensures s in a <==> s in b
    ensures s in a ==> a[s] == b[s]
  {
    assert s in a <==> s in a - services;
    assert s in b <==> s in b - services;
    if s in a {
      assert (a - services)[s] == a[s] && (b - services)[s] == b[s];
    }
  }

  lemma OnlyOne(a: Units, b: Units, s: Service)
    requires s in b && b == a[s := b[s]]
    ensures a - {s} == b - {s}
  {
  }

  lemma ConvergedIsThere(m: Marker, us: Units, s: Service)
    ensures Converged(m, us, s) ==> s in us
  {
  }

  lemma SwitchConverges(m: Marker, a: Units, b: Units, s: Service)
    requires SwitchedOnly(a, b, s, true)
    ensures Converged(m, a, s) <==> Converged(m, b, s)
  {
  }

  lemma UpOneMore(m: Marker, a: Units, b: Units, c: Units, done: set<Service>, s: Service)
    requires UpOnly(m, a, b, done) && UpOnly(m, b, c, {s})
    ensures UpOnly(m, a, c, done + {s})
  {
    forall x | x in done + {s} ensures x in c && c[x].running && Converged(m, c, x) {
      if x != s {
        Untouched(b, c, {s}, x);
      }
    }
    assert a - (done + {s}) == c - (done + {s}) by {
      forall x | x !in done + {s} ensures (x in a <==> x in c) && (x in a ==> a[x] == c[x]) {
        Untouched(a, b, done, x);
        Untouched(b, c, {s}, x);
      }
    }
  }

  /** Tenderdash was withdrawn around Drive, and is not itself changed. */
  predicate Drained(m: Marker, s: Service) {
    s == DriveTenderdash && m.Drain() && s !in m.changes
  }

  /** What a roll makes of the containers: the changes are up on the render, a
    * drained Tenderdash is up again, and nothing else is touched. */
  ghost predicate Rolled(m: Marker, a: Units, b: Units) {
    && (forall s :: s in m.changes ==> s in b && b[s].running && Converged(m, b, s))
    && (forall s :: s !in m.changes && !Drained(m, s) ==> (s in a <==> s in b) && (s in a ==> b[s] == a[s]))
    && (Drained(m, DriveTenderdash) ==>
          && DriveTenderdash in a && DriveTenderdash in b
          && b[DriveTenderdash] == if m.Starting() && a[DriveTenderdash].running then a[DriveTenderdash]
                                   else a[DriveTenderdash].Switched(true))
  }

  /** The roll finds the Tenderdash it withdraws, or starts again. */
  predicate Rollable(m: Marker, us: Units) {
    (m.Drain() && !m.Starting()) || Drained(m, DriveTenderdash) ==> DriveTenderdash in us
  }

  /** Tenderdash back up behind Drive's listener. */
  predicate Resumed(m: Marker, a: Units, b: Units) {
    if DriveTenderdash in m.changes then UpOnly(m, a, b, {DriveTenderdash})
    else DriveTenderdash in a && b == if a[DriveTenderdash].running then a
                                      else a[DriveTenderdash := a[DriveTenderdash].Switched(true)]
  }

  lemma RollsUp(m: Marker, a: Units, b: Units, c: Units, d: Units)
    requires if m.Drain() && !m.Starting() then SwitchedOnly(a, b, DriveTenderdash, false) else b == a
    requires UpOnly(m, b, c, m.Immediate())
    requires if m.Drain() then Resumed(m, c, d) else d == c
    ensures Rolled(m, a, d)
  {
    ImmediateIsSplit(m);
    forall s | s in m.changes ensures s in d && d[s].running && Converged(m, d, s) {
      if m.Drain() && s != DriveTenderdash && DriveTenderdash in m.changes {
        Untouched(c, d, {DriveTenderdash}, s);
      }
    }
    forall s | s !in m.changes ensures s != DriveTenderdash ==> (s in a <==> s in d) && (s in a ==> d[s] == a[s])
      ensures s == DriveTenderdash ==> (s in b <==> s in c) && (s in b ==> c[s] == b[s])
    {
      Untouched(b, c, m.Immediate(), s);
      if m.Drain() && DriveTenderdash in m.changes {
        Untouched(c, d, {DriveTenderdash}, s);
      }
    }
  }

  lemma SameUp(m: Marker, m': Marker, a: Units, b: Units, services: set<Service>)
    requires UpOnly(m, a, b, services) && m'.change == m.change
    ensures UpOnly(m', a, b, services)
  {
  }

  lemma UpKeepsTenderdash(m: Marker, a: Units, b: Units)
    requires UpOnly(m, a, b, m.Immediate())
    ensures Drained(m, DriveTenderdash) ==> (DriveTenderdash in a <==> DriveTenderdash in b)
  {
    if Drained(m, DriveTenderdash) {
      Untouched(a, b, m.Immediate(), DriveTenderdash);
    }
  }

  class Worker {
    const n: Node
    const c: Change
    var m: Marker

    constructor (n: Node, c: Change)
      ensures this.n == n && this.c == c
    {
      this.n, this.c := n, c;
      m := Marker(c, {}, false, Pending);
    }

    ghost predicate Working()
      reads this, n
    {
      n.Orderly() && n.marker == Some(m) && m.change == c && !m.applied
    }

    method Note(dependency: Dependency) returns (reply: Reply)
      requires Working()
      requires dependency == StartRequested || dependency == Started ==>
        m.Drain() && ConvergedAll(m, n.units, m.Immediate())
      modifies this`m, n`marker
      ensures n.Orderly() && m == old(m).(dependency := dependency) && (reply.Done? ==> Working())
      ensures n.calm ==> reply.Done?
    {
      hide Fits, History, HeldDown;
      DependencyFits(m, n.units, n.created, dependency);
      m := m.(dependency := dependency);
      reply := n.Save(m);
    }

    /** Withdraws Tenderdash before Drive is touched; the intent is saved first. */
    method Withdraw() returns (reply: Reply)
      requires Working() && m.Drain() && !m.Starting()
      modifies this`m, n`marker, n`units, n`held, n`log, n`created
      ensures n.Orderly() && old(n.log) <= n.log
      ensures m == old(m).(dependency := m.dependency) && !m.Starting()
      ensures reply.Done? ==> Working() && n.TenderdashDown()
      ensures n.calm ==> (reply.Done? <==> DriveTenderdash in old(n.units))
      ensures n.calm && reply.Done? ==> SwitchedOnly(old(n.units), n.units, DriveTenderdash, false)
    {
      hide Fits, History, HeldDown;
      reply := Note(StopRequested);
      if reply.Done? {
        reply := n.Switch(DriveTenderdash, false);
      }
      if reply.Done? {
        reply := Note(Stopped);
      }
    }

    /** Brings one service to the installed render. */
    method UpOne(s: Service) returns (reply: Reply)
      requires Working() && s in m.changes
      requires s == DriveAbci ==> n.TenderdashDown() || Converged(m, n.units, DriveAbci)
      requires s == DriveTenderdash && m.Drain() ==> n.listenerSeen
      modifies n`units, n`held, n`log, n`created
      ensures Working() && old(n.log) <= n.log
      ensures s != DriveTenderdash && old(n.TenderdashDown()) ==> n.TenderdashDown()
      ensures n.calm ==> reply.Done? && UpOnly(m, old(n.units), n.units, {s})
    {
      hide Fits, History, HeldDown, Converged;
      UnconvergedIsNew(m, n.units, n.created, s);
      reply := Done;
      if !Converged(m, n.units, s) {
        reply := Renew(s);
      }
      ghost var renewed := n.units;
      ConvergedIsThere(m, n.units, s);
      if reply.Done? && s in n.units && !n.units[s].running {
        reply := n.Switch(s, true);
        if n.calm {
          OnlyOne(renewed, n.units, s);
          SwitchConverges(m, renewed, n.units, s);
        }
      }
    }

    /** The old container is removed, the new one created. */
    method Renew(s: Service) returns (reply: Reply)
      requires Working() && s in m.changes && !Converged(m, n.units, s) && s in m.change.desired && s !in n.created
      requires s == DriveAbci ==> n.TenderdashDown()
      modifies n`units, n`log, n`created
      ensures Working() && old(n.log) <= n.log && (reply.Done? ==> Converged(m, n.units, s))
      ensures s != DriveTenderdash && old(n.TenderdashDown()) ==> n.TenderdashDown()
      ensures n.calm ==> reply.Done? && old(n.units) - {s} == n.units - {s}
    {
      hide Fits, History, HeldDown, Converged;
      if s in n.units {
        reply := n.RemoveUnit(s);
        if !reply.Done? {
          return;
        }
      }
      ghost var removed := n.units;
      AbsentIsUnconverged(m, n.units, s);
      reply := n.CreateUnit(s);
      if n.calm {
        OnlyOne(removed, n.units, s);
      }
    }

    /** One Compose call: the services in any order, each all the way or not. */
    method Up(services: set<Service>) returns (reply: Reply)
      requires Working() && services <= m.changes
      requires DriveAbci in services ==> n.TenderdashDown() || m.Starting()
      requires DriveTenderdash in services ==> DriveAbci !in services && (m.Drain() ==> n.listenerSeen)
      modifies n`units, n`held, n`log, n`created
      ensures Working() && old(n.log) <= n.log
      ensures reply.Done? ==> ConvergedAll(m, n.units, services)
      ensures n.calm ==> reply.Done? && UpOnly(m, old(n.units), n.units, services)
    {
      hide Fits, History, HeldDown, Converged;
      var rest := services;
      reply := Done;
      while rest != {}
        invariant Working() && old(n.log) <= n.log && rest <= services
        invariant DriveAbci in rest ==> n.TenderdashDown() || m.Starting()
        invariant reply.Done? && (n.calm ==> UpOnly(m, old(n.units), n.units, services - rest))
      {
        var s: Service :| s in rest;
        ghost var done := services - rest;
        rest := rest - {s};
        if m.Starting() {
          StartingIsConverged(m, n.units, n.created);
        }
        ghost var before := n.units;
        reply := UpOne(s);
        if !reply.Done? {
          return;
        }
        if n.calm {
          UpOneMore(m, old(n.units), before, n.units, done, s);
          assert services - rest == done + {s};
        }
      }
      assert services - rest == services;
      if !ConvergedAll(m, n.units, services) {
        reply := Failed;
      }
    }

    /** The recorded changes, with Tenderdash down around Drive's. */
    method Roll() returns (reply: Reply)
      requires Working()
      modifies this`m, n`marker, n`units, n`held, n`log, n`created, n`listenerSeen
      ensures n.Orderly() && old(n.log) <= n.log && m == old(m).(dependency := m.dependency)
      ensures reply.Done? ==> Working()
      ensures n.calm ==> (reply.Done? <==> Rollable(old(m), old(n.units)))
      ensures n.calm && reply.Done? ==> Rolled(old(m), old(n.units), n.units)
    {
      hide Fits, History, HeldDown, Converged, ConvergedAll, UpOnly, Rolled, Resumed;
      reply := Done;
      if m.Drain() && !m.Starting() {
        reply := Withdraw();
      }
      ImmediateIsSplit(m);
      ghost var withdrawn := n.units;
      if reply.Done? {
        reply := Up(m.Immediate());
      }
      ghost var up := n.units;
      if n.calm && reply.Done? {
        UpKeepsTenderdash(m, withdrawn, up);
        SameUp(m, old(m), withdrawn, up, m.Immediate());
      }
      if reply.Done? && m.Drain() {
        reply := Finish();
      }
      if n.calm && reply.Done? {
        RollsUp(old(m), old(n.units), withdrawn, up, n.units);
      }
    }

    /** Starts a drained Tenderdash behind Drive's listener. */
    method Finish() returns (reply: Reply)
      requires Working() && m.Drain() && ConvergedAll(m, n.units, m.Immediate())
      modifies this`m, n`marker, n`units, n`held, n`log, n`created, n`listenerSeen
      ensures n.Orderly() && old(n.log) <= n.log && m == old(m).(dependency := m.dependency)
      ensures reply.Done? ==> Working()
      ensures n.calm ==> (reply.Done? <==> DriveTenderdash in m.changes || DriveTenderdash in old(n.units))
      ensures n.calm && reply.Done? ==> forall d :: Resumed(m.(dependency := d), old(n.units), n.units)
    {
      hide Fits, History, HeldDown, Converged, ConvergedAll, UpOnly;
      reply := n.Listen();
      if reply.Done? && m.dependency != Started {
        reply := Note(StartRequested);
      }
      if !reply.Done? {
        return;
      }
      ghost var before := n.units;
      if DriveTenderdash in m.changes {
        reply := Up({DriveTenderdash});
        if n.calm && reply.Done? {
          forall d ensures UpOnly(m.(dependency := d), before, n.units, {DriveTenderdash}) {
            SameUp(m, m.(dependency := d), before, n.units, {DriveTenderdash});
          }
        }
      } else if DriveTenderdash !in n.units {
        reply := Failed;
      } else if !n.units[DriveTenderdash].running {
        reply := n.Switch(DriveTenderdash, true);
      }
      if reply.Done? {
        StartingIsConverged(m, n.units, n.created);
        reply := Note(Started);
      }
    }

    /** This rollout may begin here, or an earlier run of it did. */
    predicate Enterable()
      reads this, n
    {
      if n.marker.Some? && n.marker.value.change.id == c.id then n.marker.value.change == c
      else if n.marker.None? then c.previousId == ""
      else n.marker.value.change.id == c.previousId && n.marker.value.applied
    }

    /** The marker a run then works with. */
    function Entered(): Marker
      reads this, n
    {
      if n.marker.Some? && n.marker.value.change.id == c.id then n.marker.value
      else Marker(c, Changed(c.desired, n.units), false, Pending)
    }

    /** Opens this rollout on the node, or finds how far an earlier run came. */
    method Enter() returns (reply: Reply)
      requires n.Orderly()
      modifies this`m, n`marker, n`turn, n`created
      ensures n.Orderly() && (reply.Done? ==> n.marker == Some(m) && m.change == c)
      ensures reply.Done? && old(n.marker.None? || n.marker.value.change.id != c.id) ==>
        !m.applied && m.changes == Changed(c.desired, n.units)
      ensures n.marker != old(n.marker) ==>
        old(n.marker.None? || (n.marker.value.applied && n.marker.value.change.id == c.previousId != c.id))
      ensures n.calm ==> (reply.Done? <==> old(Enterable()))
      ensures reply.Done? ==> m == old(Entered())
    {
      hide Fits, History, HeldDown;
      reply := n.Ask();
      if !reply.Done? {
        return;
      }
      if n.marker.Some? && n.marker.value.change.id == c.id {
        m := n.marker.value;
        if m.change != c {
          reply := Failed;
        }
        return;
      }
      if (n.marker.None? && c.previousId != "")
         || (n.marker.Some? && (n.marker.value.change.id != c.previousId || !n.marker.value.applied)) {
        return Failed;
      }
      m := Marker(c, Changed(c.desired, n.units), false, Pending);
      BegunFits(c, n.units);
      reply := n.Open(m);
    }

    /** Before anything is changed a service outside the change is still the
      * recorded container, running and not restarted; but a Tenderdash withdrawn
      * around Drive's replacement may be down, or started anew. */
    predicate Undisturbed(m: Marker, us: Units) {
      forall s :: s in c.desired && s !in m.changes ==> s in us && (s in c.preserve ==>
        && var u, base, drained := us[s], c.preserve[s], s == DriveTenderdash;
        && u.id == base.id
        && (u.restarts == base.restarts || (drained && m.Starting() && u.restarts == 0))
        && (u.running || (drained && m.dependency != Pending && m.dependency != Started)))
    }

    /** Everything runs the render; a service outside the change is in the
      * recorded container and did not restart, a drained Tenderdash not since
      * its planned start. */
    predicate Landed(m: Marker, us: Units) {
      && (forall s :: s in c.desired ==> Converged(m, us, s) && us[s].running)
      && (forall s :: s in c.desired && s !in m.changes && s in c.preserve ==>
            && us[s].id == c.preserve[s].id
            && us[s].restarts == if s == DriveTenderdash && m.Drain() then 0 else c.preserve[s].restarts)
    }

    /** A roll from here lands: besides, what it does not touch runs, and a
      * drained Tenderdash that runs already did not restart. */
    predicate Passable(m: Marker, us: Units) {
      && Undisturbed(m, us) && Rollable(m, us)
      && (forall s :: s in c.desired && s !in m.changes && !Drained(m, s) ==> s in us && us[s].running)
      && (Drained(m, DriveTenderdash) && DriveTenderdash in c.desired && DriveTenderdash in c.preserve && m.Starting() ==>
            us[DriveTenderdash].running ==> us[DriveTenderdash].restarts == 0)
    }

    lemma PassableParts(m: Marker, us: Units)
      ensures Passable(m, us) ==> Undisturbed(m, us) && Rollable(m, us)
      ensures Landed(m, us) <==> Landed(m.(applied := true), us)
    {
    }

    lemma LandsIff(m: Marker, m': Marker, a: Units, b: Units, created: set<Service>)
      requires Fits(m, a, created) && m.change == c && Undisturbed(m, a) && Rollable(m, a) && Rolled(m, a, b)
      requires m' == m.(dependency := m'.dependency)
      ensures Landed(m', b) <==> Passable(m, a)
    {
      assert forall s :: s in c.desired && s !in m.changes ==> Converged(m, a, s);
      if Passable(m, a) {
        forall s | s in c.desired ensures Converged(m', b, s) && b[s].running {
        }
      }
    }

    /** Exactly when a run in which nothing fails succeeds. */
    predicate Ready()
      reads this, n
    {
      Enterable() && if Entered().applied then Landed(Entered(), n.units) else Passable(Entered(), n.units)
    }

    /** One run of the rollout on this node. */
    method Execute() returns (reply: Reply)
      requires n.Orderly()
      modifies this`m, n`marker, n`units, n`held, n`log, n`created, n`listenerSeen, n`turn
      ensures n.Orderly() && old(n.log) <= n.log
      ensures reply.Done? ==> n.marker == Some(m) && m.change == c && m.applied && Landed(m, n.units)
      ensures n.calm ==> (reply.Done? <==> old(Ready()))
      ensures old(n.marker.Some? && n.marker.value.applied && n.marker.value.change.id == c.id) ==>
        n.log == old(n.log) && n.units == old(n.units) && n.marker == old(n.marker)
      ensures old(n.marker.Some? && !n.marker.value.applied && n.marker.value.change != c) ==>
        n.log == old(n.log) && n.units == old(n.units) && n.marker == old(n.marker)
    {
      hide Fits, History, HeldDown, Undisturbed, Landed, Rollable, Rolled, Passable;
      reply := Enter();
      PassableParts(m, n.units);
      if reply.Done? && !m.applied {
        if !Undisturbed(m, n.units) {
          return Failed;
        }
        reply := n.Ask();
        if reply.Done? {
          ghost var before := n.units;
          ghost var entered, created := m, n.created;
          reply := Roll();
          if n.calm && reply.Done? {
            LandsIff(entered, m, before, n.units, created);
          }
        }
      }
      if reply.Done? {
        reply := n.Ask();
      }
      if !reply.Done? {
        return;
      }
      if !Landed(m, n.units) {
        return Failed;
      }
      PassableParts(m, n.units);
      m := m.(applied := true);
      reply := n.Save(m);
    }
  }

  lemma AbsentIsUnconverged(m: Marker, us: Units, s: Service)
    ensures s !in us ==> !Converged(m, us, s)
  {
  }

  // -------------------------------------------------------- main theorems

  /** Any number of runs, of any rollouts, each ending in any way: Drive is
    * removed or created only while Tenderdash is down, a drained Tenderdash is
    * started only after Drive's listener was seen in that run, only recorded
    * changes are recreated, and none of them twice in one rollout. */
  method AllRuns(n: Node, rollouts: seq<Change>)
    requires n.Orderly()
    modifies n
    ensures n.Orderly() && old(n.log) <= n.log
    ensures forall i :: 0 <= i < |n.log| ==> Allowed(n.log[i])
    ensures CreatedOnce(n.log)
  {
    hide Fits, HeldDown, Allowed, CreatedOnce;
    for k := 0 to |rollouts|
      invariant n.Orderly() && old(n.log) <= n.log
    {
      n.Meanwhile();
      var worker := new Worker(n, rollouts[k]);
      var reply := worker.Execute();
    }
  }
}
