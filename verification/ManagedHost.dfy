/** Image replacement on one enrolled host: a write-ahead marker is saved
  * between container stop, remove, create and start, so that any number of
  * interrupted runs of one operation add up to one orderly replacement. */
module ManagedHost {
  import opened Claims
  import opened UpgradeRecord
  import opened Wrappers

  type Image = string
  type Config = string

  datatype Container = Container(id: nat, image: Image, config: Config, running: bool, starts: nat)

  datatype Native = Native(core: string, tor: string)

  datatype Baseline = Baseline(
    parts: map<Component, Container>, companions: map<string, Container>, native: Native, files: string)

  datatype Operation = Operation(id: string, deploy: bool, pins: map<Component, Image>, baseline: Baseline)

  datatype Dependency = Untouched | StopRequested | Stopped | StartRequested | Started

  /** operation.json: what is being done, and how far it got. */
  datatype Marker = Marker(
    operation: Operation, recipes: map<Component, Config>, completed: map<Component, nat>,
    complete: bool, drain: bool, dependency: Dependency)

  /** A deploy may not change an image. */
  predicate KeepsImage(q: Operation, k: Component) {
    q.deploy ==> k in q.pins && k in q.baseline.parts && q.pins[k] == q.baseline.parts[k].image
  }

  /** Every pin of a deploy is the image the host runs already. */
  predicate DeployKeeps(q: Operation) {
    forall k :: k in q.pins ==> KeepsImage(q, k)
  }

  /** Tenderdash may be started: Drive has been replaced. */
  predicate Starting(m: Marker) {
    m.dependency == StartRequested || m.dependency == Started
  }

  // ---------------------------------------------- the marker and the host

  predicate Converged(m: Marker, cs: map<Component, Container>, k: Component) {
    k in m.operation.pins && k in cs && cs[k].image == m.operation.pins[k]
  }

  /** One selected component: its container is absent, the original one, or one
    * of the pinned image with the original's configuration. */
  predicate PartFits(m: Marker, cs: map<Component, Container>, created: set<Component>, k: Component) {
    && k in m.operation.pins && k in m.operation.baseline.parts && k in m.recipes
    && var b := m.operation.baseline.parts[k];
    && m.recipes[k] == b.config
    && (k in cs ==>
          && cs[k].config == b.config
          && (cs[k].image == m.operation.pins[k] || (cs[k].id == b.id && cs[k].image == b.image)))
    && (k in m.completed ==> Converged(m, cs, k) && cs[k].id == m.completed[k] && KeepsImage(m.operation, k))
    && (k in created ==> Converged(m, cs, k))
    && (m.complete ==> k in m.completed)
  }

  /** Tenderdash around Drive's replacement. */
  predicate DrainFits(m: Marker, cs: map<Component, Container>) {
    && (m.drain ==> Drive in m.operation.pins && Tenderdash in m.operation.pins)
    && (Starting(m) ==> m.drain && Drive in m.completed)
    && (m.drain && !Starting(m) ==> Tenderdash in cs && Tenderdash !in m.completed)
    && (!m.drain && Drive in m.operation.pins ==>
          (Converged(m, cs, Drive) && KeepsImage(m.operation, Drive)) ||
          (Tenderdash !in cs && Tenderdash !in m.operation.pins))
  }

  predicate Fits(m: Marker, cs: map<Component, Container>, created: set<Component>) {
    && (forall k :: k in m.operation.pins ==> PartFits(m, cs, created, k))
    && m.completed.Keys + created <= m.operation.pins.Keys
    && DrainFits(m, cs)
  }

  predicate Kept(a: Container, b: Container) {
    a.id == b.id && a.image == b.image && a.config == b.config
  }

  /** Containers crash, restart or are started by somebody else, except those
    * stopped on command. */
  predicate Drifted(a: map<Component, Container>, b: map<Component, Container>, held: set<Component>) {
    a.Keys == b.Keys && HeldDown(b, held) && forall k :: k in a ==> Kept(a[k], b[k])
  }

  predicate HeldDown(cs: map<Component, Container>, held: set<Component>) {
    forall k :: k in cs && k in held ==> !cs[k].running
  }

  lemma DriftFits(m: Marker, a: map<Component, Container>, b: map<Component, Container>, held: set<Component>, created: set<Component>)
    requires Fits(m, a, created) && Drifted(a, b, held)
    ensures Fits(m, b, created)
  {
    forall k | k in m.operation.pins ensures PartFits(m, b, created, k) {
      assert PartFits(m, a, created, k);
    }
  }

  lemma DriftHolds(a: map<Component, Container>, b: map<Component, Container>, held: set<Component>)
    requires Drifted(a, b, held)
    ensures HeldDown(b, held) && a.Keys == b.Keys
  {
  }

  lemma StillDrifted(a: map<Component, Container>, held: set<Component>)
    requires HeldDown(a, held)
    ensures Drifted(a, a, held)
  {
  }

  lemma DriftedOnce(a: map<Component, Container>, b: map<Component, Container>, c: map<Component, Container>,
                    held: set<Component>, less: set<Component>)
    requires Drifted(a, b, held) && Drifted(b, c, less) && less <= held
    ensures Drifted(a, c, less)
  {
  }

  lemma DriftedLess(a: map<Component, Container>, b: map<Component, Container>, held: set<Component>, less: set<Component>)
    requires Drifted(a, b, held) && less <= held
    ensures Drifted(a, b, less)
  {
  }

  /** Only the running flag of one container changes. */
  lemma SwitchDrifts(m: Marker, cs: map<Component, Container>, created: set<Component>, held: set<Component>,
                     k: Component, c: Container, held': set<Component>)
    requires Fits(m, cs, created) && HeldDown(cs, held) && k in cs && Kept(cs[k], c)
    requires held' == if c.running then held - {k} else held + {k}
    ensures Fits(m, cs[k := c], created) && HeldDown(cs[k := c], held') && Drifted(cs, cs[k := c], held - {k})
    ensures !c.running ==> Drifted(cs, cs[k := c], held)
  {
    DriftFits(m, cs, cs[k := c], {}, created);
  }

  lemma RemovedFits(m: Marker, cs: map<Component, Container>, created: set<Component>, k: Component)
    requires Fits(m, cs, created) && k in m.operation.pins && !Converged(m, cs, k)
    requires k == Tenderdash && m.drain ==> Starting(m)
    ensures Fits(m, cs - {k}, created)
  {
    forall j | j in m.operation.pins ensures PartFits(m, cs - {k}, created, j) {
      assert PartFits(m, cs, created, j);
    }
  }

  lemma CreatedFits(m: Marker, cs: map<Component, Container>, created: set<Component>, k: Component, c: Container)
    requires Fits(m, cs, created - {k}) && k in m.operation.pins && k !in cs && k in m.recipes
    requires c.image == m.operation.pins[k] && c.config == m.recipes[k]
    ensures Fits(m, cs[k := c], created)
  {
    forall j | j in m.operation.pins ensures PartFits(m, cs[k := c], created, j) {
      assert PartFits(m, cs, created - {k}, j);
    }
  }

  // ----------------------------------------------------------- the history

  datatype Act = Stop | Remove | Create | Start

  /** One request to the container engine: the operation it belongs to, the
    * marker on disk, what was up at that moment, and whether the run had found
    * everything else as planned since a component was last completed. */
  datatype Event = Event(
    turn: nat, act: Act, part: Component, tenderdashUp: bool, listenerSeen: bool, guarded: bool, marker: Marker)

  predicate Allowed(e: Event) {
    && e.part in e.marker.operation.pins && !e.marker.complete && e.guarded
    && (e.act.Stop? || e.act.Remove? ==> e.part !in e.marker.completed)
    && (e.part == Drive && !e.act.Start? ==> !e.tenderdashUp)
    && (e.part == Tenderdash && e.act.Start? && e.marker.drain ==> e.listenerSeen)
  }

  predicate CreatedOnce(log: seq<Event>) {
    forall i, j :: 0 <= i < j < |log| && log[i].act.Create? && log[j].act.Create? && log[i].part == log[j].part ==>
      log[i].turn != log[j].turn
  }

  predicate Known(log: seq<Event>, turn: nat, created: set<Component>) {
    forall i :: 0 <= i < |log| ==>
      log[i].turn <= turn && (log[i].act.Create? && log[i].turn == turn ==> log[i].part in created)
  }

  ghost predicate History(log: seq<Event>, turn: nat, created: set<Component>) {
    (forall i :: 0 <= i < |log| ==> Allowed(log[i])) && CreatedOnce(log) && Known(log, turn, created)
  }

  lemma Recorded(log: seq<Event>, turn: nat, created: set<Component>, e: Event)
    requires History(log, turn, created) && Allowed(e) && e.turn == turn
    requires e.act.Create? ==> e.part !in created
    ensures History(log + [e], turn, if e.act.Create? then created + {e.part} else created)
  {
  }

  // -------------------------------------------------------------- the host

  class Host {
    const expected: set<Component>
    var calm: bool                        // nothing fails and nobody else acts
    var parts: map<Component, Container>
    var companions: map<string, Container>
    var native: Native
    var files: string
    var staged: set<Image>
    var marker: Option<Marker>
    var held: set<Component>                   // stopped on command, not started since
    var listenerSeen: bool                // Drive's listener, by the present run
    var guarded: bool                     // everything else, since a component was last completed
    ghost var turn: nat                   // operations opened so far
    ghost var created: set<Component>          // by the present operation
    ghost var log: seq<Event>

    /** A host before its first operation. */
    constructor (parts: map<Component, Container>, expected: set<Component>)
      ensures Orderly() && log == [] && marker == None && !listenerSeen && !guarded
      ensures this.parts == parts && this.expected == expected
    {
      this.parts, this.expected := parts, expected;
      calm, listenerSeen, guarded, held, staged, marker := false, false, false, {}, {}, None;
      companions, native, files := map[], Native("", ""), "";
      turn, created, log := 0, {}, [];
    }

    ghost predicate Orderly()
      reads this
    {
      && History(log, turn, created)
      && (marker.Some? && !marker.value.complete ==> Fits(marker.value, parts, created))
      && HeldDown(parts, held)
    }

    predicate TenderdashDown()
      reads this
    {
      Tenderdash in held || Tenderdash !in parts
    }

    method Drift()
      requires Orderly()
      modifies `parts
      ensures Orderly() && Drifted(old(parts), parts, held)
      ensures calm ==> parts == old(parts)
    {
      hide Fits, History, Drifted, HeldDown;
      StillDrifted(parts, held);
      if !calm {
        var now :| Drifted(parts, now, held);
        DriftHolds(parts, now, held);
        if marker.Some? && !marker.value.complete {
          DriftFits(marker.value, parts, now, held, created);
        }
        parts := now;
      }
    }

    /** Between runs anything may start, stop or change, but while an operation
      * is unfinished nobody else removes or replaces the selected containers. */
    method Meanwhile()
      requires Orderly()
      modifies `parts, `companions, `native, `files, `staged, `held, `listenerSeen, `guarded, `calm
      ensures Orderly() && !listenerSeen && !guarded
      ensures marker.Some? && !marker.value.complete ==> Drifted(old(parts), parts, {})
    {
      held, listenerSeen, guarded, calm := {}, false, false, false;
      if marker.None? || marker.value.complete {
        parts := *;
      }
      Drift();
      companions, native, files, staged, calm := *, *, *, *, *;
    }

    ghost predicate MayAct(act: Act, k: Component)
      reads this
    {
      && Orderly() && guarded && marker.Some? && !marker.value.complete && k in marker.value.operation.pins
      && (act.Stop? || act.Remove? ==> k !in marker.value.completed)
      && (k == Drive && !act.Start? ==> TenderdashDown())
      && (k == Tenderdash && act.Start? && marker.value.drain ==> listenerSeen)
      && (act.Create? ==> k !in created)
    }

    ghost method Record(act: Act, k: Component)
      requires MayAct(act, k)
      modifies `log, `created
      ensures log == old(log) + [Event(turn, act, k, Tenderdash in parts && parts[Tenderdash].running, listenerSeen, guarded, marker.value)]
      ensures History(log, turn, created)
      ensures created == if act.Create? then old(created) + {k} else old(created)
    {
      var e := Event(turn, act, k, Tenderdash in parts && parts[Tenderdash].running, listenerSeen, guarded, marker.value);
      Recorded(log, turn, created, e);
      log := log + [e];
      if act.Create? {
        created := created + {k};
      }
    }

    /** An acknowledgement may be lost, and the run may die with it. */
    method Answered(acted: bool) returns (reply: Reply)
      requires calm ==> acted
      ensures (reply.Done? ==> acted) && (calm ==> reply.Done?)
    {
      reply :| true;
      if calm {
        reply := Done;
      } else if reply.Done? && !acted {
        reply := Failed;
      }
    }

    method Stop(k: Component) returns (reply: Reply)
      requires MayAct(Act.Stop, k) && k in parts
      modifies `parts, `held, `log, `created
      ensures Orderly() && Drifted(old(parts), parts, old(held)) && old(held) <= held
      ensures created == old(created) && old(log) <= log
      ensures reply.Done? ==> k in held
      ensures calm ==> reply.Done? && parts == old(parts)[k := old(parts)[k].(running := false)]
    {
      hide Fits, History, Drifted, HeldDown;
      Drift();
      DriftHolds(old(parts), parts, held);
      var acts: bool := *;
      if acts || calm {
        Record(Act.Stop, k);
        ghost var before := parts;
        var c := parts[k].(running := false);
        SwitchDrifts(marker.value, parts, created, held, k, c, held + {k});
        parts, held := parts[k := c], held + {k};
        DriftedOnce(old(parts), before, parts, old(held), old(held));
      }
      reply := Answered(acts || calm);
    }

    method Remove(k: Component) returns (reply: Reply)
      requires MayAct(Act.Remove, k) && k in parts && !Converged(marker.value, parts, k)
      requires k == Tenderdash && marker.value.drain ==> Starting(marker.value)
      modifies `parts, `log, `created
      ensures Orderly() && created == old(created) && old(log) <= log
      ensures parts.Keys <= old(parts).Keys && (reply.Done? ==> k !in parts)
      ensures calm ==> reply.Done? && parts == old(parts) - {k}
    {
      hide Fits, History;
      Drift();
      var acts: bool := *;
      if acts || calm {
        Record(Act.Remove, k);
        RemovedFits(marker.value, parts, created, k);
        parts := parts - {k};
      }
      reply := Answered(acts || calm);
    }

    /** A new container from the saved recipe and the pinned image. */
    method Create(k: Component) returns (reply: Reply)
      requires MayAct(Act.Create, k) && k !in parts && k in marker.value.recipes
      modifies `parts, `log, `created
      ensures Orderly() && old(log) <= log
      ensures reply.Done? ==> Converged(marker.value, parts, k) && parts[k].config == marker.value.recipes[k]
      ensures parts.Keys <= old(parts).Keys + {k}
      ensures calm ==> reply.Done? && parts == old(parts)[k := parts[k]]
    {
      hide Fits, History;
      Drift();
      var acts: bool := *;
      if acts || calm {
        Record(Act.Create, k);
        var id: nat :| true;
        var c := Container(id, marker.value.operation.pins[k], marker.value.recipes[k], false, 0);
        CreatedFits(marker.value, parts, created, k, c);
        parts := parts[k := c];
      }
      reply := Answered(acts || calm);
    }

    method Start(k: Component) returns (reply: Reply)
      requires MayAct(Act.Start, k) && k in parts
      modifies `parts, `held, `log, `created
      ensures Orderly() && created == old(created) && old(log) <= log && old(held) - {k} <= held
      ensures Drifted(old(parts), parts, old(held) - {k})
      ensures calm ==> reply.Done? && parts == old(parts)[k := parts[k]] && parts[k].running
    {
      hide Fits, History, Drifted, HeldDown;
      Drift();
      DriftHolds(old(parts), parts, held);
      DriftedLess(old(parts), parts, held, held - {k});
      var acts: bool := *;
      if acts || calm {
        Record(Act.Start, k);
        ghost var before := parts;
        var c := parts[k].(running := true, starts := parts[k].starts + 1);
        SwitchDrifts(marker.value, parts, created, held, k, c, held - {k});
        parts, held := parts[k := c], held - {k};
        DriftedOnce(old(parts), before, parts, old(held), old(held) - {k});
      }
      reply := Answered(acts || calm);
    }

    /** Waits for Drive's listener. */
    method Listen() returns (reply: Reply)
      modifies `listenerSeen
      ensures reply.Done? ==> listenerSeen
      ensures calm && Drive in parts ==> reply.Done?
    {
      var seen: bool := *;
      listenerSeen := seen || calm;
      reply := Answered(seen || calm);
      if Drive !in parts {
        reply := Failed;
      }
    }

    /** Reads that change nothing, and may fail. */
    method Ask() returns (reply: Reply)
      ensures calm ==> reply.Done?
    {
      reply := Answered(true);
    }

    /** Opens a new operation: its first marker replaces a completed one. */
    method Open(m: Marker) returns (reply: Reply)
      requires Orderly() && !m.complete && Fits(m, parts, {}) && (marker.Some? ==> marker.value.complete)
      modifies `marker, `turn, `created
      ensures Orderly() && (marker == old(marker) || marker == Some(m))
      ensures reply.Done? ==> marker == Some(m)
      ensures calm ==> reply.Done?
    {
      hide Fits;
      var acts: bool := *;
      if acts || calm {
        marker, turn, created := Some(m), turn + 1, {};
      }
      reply := Answered(acts || calm);
    }

    /** Looks at everything the operation must leave alone. */
    method Inspect(m: Marker) returns (reply: Reply)
      modifies `guarded
      ensures guarded == reply.Done? && (reply.Done? ==> Guard(m, this))
      ensures calm && Guard(m, this) ==> reply.Done?
    {
      hide Guard;
      reply := Ask();
      if reply.Done? && !Guard(m, this) {
        reply := Failed;
      }
      guarded := reply.Done?;
    }

    /** Replaces the marker of the present operation: all or nothing. */
    method Save(m: Marker) returns (reply: Reply)
      requires Orderly() && Fits(m, parts, created) && marker.Some? && marker.value.operation == m.operation
      modifies `marker, `guarded
      ensures guarded == old(guarded && m.completed == marker.value.completed)
      ensures Orderly() && (marker == old(marker) || marker == Some(m))
      ensures reply.Done? ==> marker == Some(m)
      ensures calm ==> reply.Done?
    {
      hide Fits, History;
      guarded := guarded && m.completed == marker.value.completed;
      var acts: bool := *;
      if acts || calm {
        marker := Some(m);
      }
      reply := Answered(acts || calm);
    }

    /** Replacing Core changes the native processes it runs. */
    method Processes(k: Component)
      modifies `native
      ensures native.tor == old(native).tor && (k != Core ==> native == old(native))
    {
      if k == Core {
        var core: string := *;
        native := native.(core := core);
      }
    }
  }
  // ------------------------------------------------------------- one run

  const Order: seq<Component> := [Core, Drive, Tenderdash, Dapi, Gateway, Helper]

  /** The processes and files an operation must leave alone. */
  predicate SameNative(a: Native, b: Native, core: bool) {
    a.tor == b.tor && (core || a.core == b.core)
  }

  /** Nothing outside the mutable components differs from the baseline. */
  predicate AtBaseline(b: Baseline, cs: map<Component, Container>, mutable: set<Component>) {
    forall k :: k in b.parts ==>
      k in cs && cs[k].config == b.parts[k].config && (k !in mutable ==> cs[k] == b.parts[k])
  }

  predicate GuardPart(m: Marker, cs: map<Component, Container>, staged: set<Image>, k: Component)
    requires k in m.operation.baseline.parts
  {
    var b := m.operation.baseline.parts[k];
    if k !in cs then k in m.operation.pins && !m.complete
    else
      && cs[k].config == b.config
      && if k !in m.operation.pins then cs[k] == b
         else if k in m.completed then cs[k].id == m.completed[k]
         else m.operation.pins[k] in staged
              && ((cs[k].id == b.id && cs[k].image == b.image) || cs[k].image == m.operation.pins[k])
  }

  predicate Guard(m: Marker, h: Host)
    reads h`parts, h`companions, h`native, h`files, h`staged
  {
    && var b := m.operation.baseline;
    && h.companions == b.companions && h.files == b.files
    && SameNative(h.native, b.native, Core in m.operation.pins)
    && forall k :: k in b.parts ==> GuardPart(m, h.parts, h.staged, k)
  }

  /** Nothing but the operation's own work has happened to this host. */
  ghost predicate Intact(q: Operation, h: Host)
    reads h`parts, h`companions, h`native, h`files, h`staged
  {
    && q.baseline.parts.Keys == h.expected && h.parts.Keys <= h.expected && q.pins.Keys <= h.expected
    && h.companions == q.baseline.companions && h.files == q.baseline.files
    && SameNative(h.native, q.baseline.native, Core in q.pins)
    && OthersIntact(q, h.parts)
    && forall k :: k in q.pins ==> MayPin(q, h.staged, k)
  }

  predicate MayPin(q: Operation, staged: set<Image>, k: Component)
    requires k in q.pins
  {
    q.pins[k] in staged && k in q.baseline.parts
  }

  predicate OthersIntact(q: Operation, cs: map<Component, Container>) {
    forall k :: k in q.baseline.parts && k !in q.pins ==> k in cs && cs[k] == q.baseline.parts[k]
  }

  lemma OthersStayIntact(q: Operation, a: map<Component, Container>, b: map<Component, Container>, k: Component)
    requires OthersIntact(q, a) && k in q.pins && a - {k} == b - {k}
    ensures OthersIntact(q, b)
  {
    forall j | j in q.baseline.parts && j !in q.pins ensures j in b && b[j] == q.baseline.parts[j] {
      assert j in a - {k} && (a - {k})[j] == a[j];
      assert j in b - {k} && (b - {k})[j] == b[j];
    }
  }

  /** What the host shows is what the operation may find. */
  predicate Preserved(q: Operation, h: Host, mutable: set<Component>)
    reads h`parts, h`companions, h`native, h`files
  {
    && h.parts.Keys == h.expected && AtBaseline(q.baseline, h.parts, mutable)
    && h.companions == q.baseline.companions && h.files == q.baseline.files
    && SameNative(h.native, q.baseline.native, Core in mutable)
  }

  /** The selected containers are the ones the operation was planned for. */
  predicate AtSource(q: Operation, cs: map<Component, Container>) {
    forall k :: k in q.pins ==>
      k in cs && k in q.baseline.parts && cs[k].id == q.baseline.parts[k].id && cs[k].image == q.baseline.parts[k].image
  }

  /** Drive will be replaced, or is down: Tenderdash must be drained first. */
  predicate NeedsDrain(q: Operation, cs: map<Component, Container>) {
    Drive in q.pins && Drive in cs && Tenderdash in cs && (cs[Drive].image != q.pins[Drive] || !cs[Drive].running)
  }

  /** A host on which a new operation may start. */
  ghost predicate Startable(q: Operation, h: Host)
    reads h`parts, h`companions, h`native, h`files, h`staged
  {
    && Intact(q, h) && Preserved(q, h, if q.deploy then q.pins.Keys else {}) && AtSource(q, h.parts)
    && (NeedsDrain(q, h.parts) ==> Tenderdash in q.pins)
  }

  /** An undisturbed host on which the operation is unfinished, finished or may
    * start. */
  ghost predicate Ready(q: Operation, h: Host)
    reads h`parts, h`companions, h`native, h`files, h`staged, h`marker, h`created
  {
    if h.marker.Some? && h.marker.value.operation.id == q.id then
      && h.marker.value.operation == q && Intact(q, h)
      && (h.marker.value.complete ==> Fits(h.marker.value, h.parts, h.created))
    else (h.marker.Some? ==> h.marker.value.complete) && Startable(q, h)
  }

  /** The operation is on record as complete already. */
  predicate Replayed(q: Operation, h: Host)
    reads h`marker
  {
    h.marker.Some? && h.marker.value.operation.id == q.id && h.marker.value.complete
  }

  /** A deploy that moves Drive to another image under a Tenderdash. */
  predicate MovesDrive(q: Operation) {
    Drive in q.pins && !KeepsImage(q, Drive) && Tenderdash in q.baseline.parts
  }

  /** A host exactly as the operation was planned for. */
  lemma PlannedIsReady(q: Operation, h: Host)
    requires h.marker == None && q.baseline == Baseline(h.parts, h.companions, h.native, h.files)
    requires h.parts.Keys == h.expected && q.pins.Keys <= h.expected && q.pins.Values <= h.staged
    requires Drive in q.pins ==> Tenderdash in q.pins
    ensures Ready(q, h)
  {
    forall k | k in q.pins ensures MayPin(q, h.staged, k) {
      assert q.pins[k] in q.pins.Values;
    }
  }

  lemma GuardPasses(m: Marker, h: Host)
    requires Intact(m.operation, h) && Fits(m, h.parts, h.created)
    ensures Guard(m, h)
  {
    forall k | k in m.operation.baseline.parts ensures GuardPart(m, h.parts, h.staged, k) {
      if k in m.operation.pins {
        assert PartFits(m, h.parts, h.created, k);
      }
    }
  }

  // ------------------------------------ what the marker says, step by step

  /** What the marker says of one selected component. */
  lemma PinnedConfig(m: Marker, cs: map<Component, Container>, created: set<Component>, k: Component)
    requires Fits(m, cs, created) && k in m.operation.pins
    ensures k in m.operation.baseline.parts
    ensures var b := m.operation.baseline.parts[k];
      k in cs ==> cs[k].config == b.config
                  && (cs[k].image == m.operation.pins[k] || (cs[k].id == b.id && cs[k].image == b.image))
  {
    assert PartFits(m, cs, created, k);
  }

  lemma Unconverged(m: Marker, cs: map<Component, Container>, created: set<Component>, k: Component)
    requires Fits(m, cs, created) && k in m.operation.pins && !Converged(m, cs, k)
    ensures k !in m.completed && k !in created && k in m.recipes && k in m.operation.baseline.parts
    ensures m.recipes[k] == m.operation.baseline.parts[k].config
  {
    assert PartFits(m, cs, created, k);
  }

  lemma DriftKeeps(m: Marker, a: map<Component, Container>, b: map<Component, Container>, held: set<Component>, k: Component)
    requires Drifted(a, b, held)
    ensures a.Keys == b.Keys && forall j :: j in a ==> Kept(a[j], b[j])
    ensures Converged(m, b, k) <==> Converged(m, a, k)
  {
  }

  lemma DependencyFits(m: Marker, cs: map<Component, Container>, created: set<Component>, dependency: Dependency)
    requires Fits(m, cs, created) && m.drain && dependency != Untouched
    requires dependency == StartRequested || dependency == Started ==> Drive in m.completed
    requires dependency == StopRequested || dependency == Stopped ==> !Starting(m)
    ensures Fits(m.(dependency := dependency), cs, created)
  {
    forall k | k in m.operation.pins ensures PartFits(m.(dependency := dependency), cs, created, k) {
      assert PartFits(m, cs, created, k);
    }
  }

  lemma DrainPending(m: Marker, cs: map<Component, Container>, created: set<Component>)
    requires Fits(m, cs, created) && m.drain
    ensures Drive in m.operation.pins && Tenderdash in m.operation.pins
    ensures !Starting(m) ==> Tenderdash in cs && Tenderdash !in m.completed
  {
  }

  lemma CompletedFits(m: Marker, cs: map<Component, Container>, created: set<Component>, k: Component)
    requires Fits(m, cs, created) && Converged(m, cs, k) && KeepsImage(m.operation, k)
    requires k == Tenderdash && m.drain ==> Starting(m)
    ensures Fits(m.(completed := m.completed[k := cs[k].id]), cs, created)
  {
    var m' := m.(completed := m.completed[k := cs[k].id]);
    forall j | j in m.operation.pins ensures PartFits(m', cs, created, j) {
      assert PartFits(m, cs, created, j);
    }
  }

  lemma DrainPins(m: Marker, cs: map<Component, Container>, created: set<Component>)
    requires Fits(m, cs, created)
    ensures m.drain ==> Drive in m.operation.pins
  {
  }

  lemma OrderCovers(pins: map<Component, Image>)
    ensures forall k :: k in pins ==> exists j :: 0 <= j < |Order| && Order[j] == k
  {
    forall k | k in pins ensures exists j :: 0 <= j < |Order| && Order[j] == k {
      match k
      case Core => assert Order[0] == k;
      case Drive => assert Order[1] == k;
      case Tenderdash => assert Order[2] == k;
      case Dapi => assert Order[3] == k;
      case Gateway => assert Order[4] == k;
      case Helper => assert Order[5] == k;
    }
  }

  lemma PinsCompleted(m: Marker, cs: map<Component, Container>, created: set<Component>)
    requires Fits(m, cs, created)
    ensures m.completed.Keys <= m.operation.pins.Keys
  {
  }

  lemma CompletedAtBaseline(m: Marker, h: Host)
    requires Fits(m, h.parts, h.created) && m.completed.Keys == m.operation.pins.Keys && Intact(m.operation, h)
    ensures Preserved(m.operation, h, m.operation.pins.Keys)
  {
    forall k | k in m.operation.pins ensures k in h.parts && h.parts[k].config == m.operation.baseline.parts[k].config {
      assert PartFits(m, h.parts, h.created, k);
    }
  }

  lemma FinalFits(m: Marker, cs: map<Component, Container>, created: set<Component>)
    requires Fits(m, cs, created) && m.completed.Keys == m.operation.pins.Keys
    ensures Fits(m.(complete := true), cs, created)
  {
    forall k | k in m.operation.pins ensures PartFits(m.(complete := true), cs, created, k) {
      assert PartFits(m, cs, created, k);
    }
  }

  lemma BegunFits(m: Marker, cs: map<Component, Container>)
    requires AtSource(m.operation, cs) && m.completed == map[] && !m.complete && m.dependency == Untouched
    requires forall k :: k in m.operation.pins ==> k in m.recipes && m.recipes[k] == cs[k].config
    requires m.drain == NeedsDrain(m.operation, cs) && (m.drain ==> Tenderdash in m.operation.pins)
    requires forall k :: k in m.operation.baseline.parts ==> k in cs && cs[k].config == m.operation.baseline.parts[k].config
    ensures Fits(m, cs, {})
  {
  }

  lemma CompletedIsConverged(m: Marker, cs: map<Component, Container>, created: set<Component>, k: Component)
    requires Fits(m, cs, created) && k in m.completed
    ensures Converged(m, cs, k)
  {
    assert PartFits(m, cs, created, k);
  }

  /** Outside a drain Drive needs no replacement, or there is no Tenderdash. */
  lemma DriveReady(m: Marker, cs: map<Component, Container>, created: set<Component>)
    requires Fits(m, cs, created) && Drive in m.operation.pins && (m.drain ==> Starting(m))
    ensures Converged(m, cs, Drive) || Tenderdash !in cs
  {
    if m.drain {
      CompletedIsConverged(m, cs, created, Drive);
    }
  }

  /** Such a deploy always stops Tenderdash first. */
  lemma MovingDriveDrains(m: Marker, h: Host)
    requires Fits(m, h.parts, h.created) && Intact(m.operation, h) && MovesDrive(m.operation)
    ensures m.drain && !Starting(m)
  {
    assert PartFits(m, h.parts, h.created, Drive);
  }

  class Worker {
    const h: Host
    const q: Operation
    var m: Marker

    constructor (h: Host, q: Operation)
      ensures this.h == h && this.q == q
    {
      this.h, this.q := h, q;
      m := Marker(q, map[], map[], false, false, Untouched);
    }

    ghost predicate Working()
      reads this, h
    {
      h.Orderly() && h.marker == Some(m) && m.operation == q && !m.complete
    }

    /** The operation is on record, and not as complete. */
    ghost predicate Unfinished()
      reads this, h
    {
      h.marker.Some? && h.marker.value.operation == q && !h.marker.value.complete
    }

    /** Saves a marker that differs only in its drain step. */
    method Note(dependency: Dependency) returns (reply: Reply)
      requires Working() && m.drain
      requires dependency == StartRequested || dependency == Started ==> Drive in m.completed
      requires dependency == StopRequested || dependency == Stopped ==> !Starting(m)
      requires dependency != Untouched
      modifies this`m, h`marker, h`guarded
      ensures h.Orderly() && m == old(m).(dependency := dependency)
      ensures Unfinished() && (reply.Done? ==> Working())
      ensures h.calm ==> reply.Done?
      ensures h.guarded == old(h.guarded)
    {
      m := m.(dependency := dependency);
      assert Fits(m, h.parts, h.created) by {
        DependencyFits(old(m), h.parts, h.created, dependency);
      }
      reply := h.Save(m);
    }

    /** Stops Tenderdash before Drive is touched; the intent is saved first. */
    method Withdraw() returns (reply: Reply)
      requires Working() && h.guarded && m.drain && !Starting(m)
      modifies this`m, h`marker, h`guarded, h`parts, h`held, h`log, h`created
      ensures h.Orderly() && old(h.log) <= h.log
      ensures reply.Done? ==> Working() && h.TenderdashDown() && m.drain && !Starting(m)
      ensures h.calm ==> reply.Done? && (old(Intact(q, h)) ==> Intact(q, h))
    {
      hide Fits, History;
      reply := Note(StopRequested);
      if reply.Done? {
        reply := StopTenderdash();
      }
      if reply.Done? {
        reply := Note(Stopped);
      }
    }

    method StopTenderdash() returns (reply: Reply)
      requires Working() && h.guarded && m.drain && !Starting(m)
      modifies h`parts, h`held, h`log, h`created
      ensures Working() && old(h.log) <= h.log && (reply.Done? ==> h.TenderdashDown())
      ensures h.calm ==> reply.Done? && (old(Intact(q, h)) ==> Intact(q, h))
    {
      hide Fits, History, HeldDown, MayPin;
      DrainPending(m, h.parts, h.created);
      reply := h.Stop(Tenderdash);
    }

    /** Removes the container of a component that is not on its pin. */
    method Replace(k: Component) returns (reply: Reply)
      requires Working() && h.guarded && k in q.pins && k in h.parts && !Converged(m, h.parts, k)
      requires k == Drive ==> h.TenderdashDown()
      requires k == Tenderdash && m.drain ==> Starting(m)
      modifies h`parts, h`held, h`log, h`created
      ensures Working() && old(h.log) <= h.log && old(h.held) <= h.held && h.parts.Keys <= old(h.parts).Keys
      ensures reply.Done? ==> k !in h.parts
      ensures h.calm ==> reply.Done? && h.parts == old(h.parts) - {k}
    {
      hide Fits, History, Drifted, HeldDown;
      Unconverged(m, h.parts, h.created, k);
      reply := h.Stop(k);
      DriftKeeps(m, old(h.parts), h.parts, old(h.held), k);
      if !reply.Done? {
        return;
      }
      reply := h.Remove(k);
    }

    /** Starts the container of a component on its pin, if it is not running,
      * and records it as completed. */
    method Settle(k: Component) returns (reply: Reply)
      requires Working() && h.guarded && Converged(m, h.parts, k) && KeepsImage(q, k)
      requires k == Tenderdash && m.drain ==> Starting(m) && h.listenerSeen
      modifies this`m, h`marker, h`guarded, h`parts, h`held, h`log, h`created, h`native
      ensures h.Orderly() && old(h.log) <= h.log && old(h.held) - {k} <= h.held && h.parts.Keys == old(h.parts).Keys
      ensures m == old(m).(completed := m.completed) && m.completed.Keys <= old(m.completed).Keys + {k}
      ensures Unfinished() && (reply.Done? ==> Working() && m.completed.Keys == old(m.completed).Keys + {k})
      ensures h.native.tor == old(h.native).tor && (h.calm && k != Core ==> h.native == old(h.native))
      ensures reply.Done? ==> k in h.parts && h.parts[k].running
      ensures h.calm ==> reply.Done? && h.parts - {k} == old(h.parts) - {k}
    {
      hide Fits, History, Drifted, HeldDown, PartFits;
      PinnedConfig(m, h.parts, h.created, k);
      StillDrifted(h.parts, h.held);
      DriftedLess(h.parts, h.parts, h.held, h.held - {k});
      reply := Done;
      if !h.parts[k].running {
        reply := h.Start(k);
      }
      DriftKeeps(m, old(h.parts), h.parts, old(h.held) - {k}, k);
      h.Processes(k);
      if reply.Done? && (!h.parts[k].running || h.parts[k].config != q.baseline.parts[k].config) {
        reply := Failed;
      }
      if !reply.Done? {
        return;
      }
      CompletedFits(m, h.parts, h.created, k);
      m := m.(completed := m.completed[k := h.parts[k].id]);
      reply := h.Save(m);
    }

    /** The checks on one component; its container is removed if it is not on
      * its pin. */
    method Clear(k: Component) returns (reply: Reply)
      requires Working() && h.guarded && k in q.pins
      requires k == Drive ==> h.TenderdashDown() || Converged(m, h.parts, Drive)
      requires k == Tenderdash && m.drain ==> Starting(m)
      modifies h`parts, h`held, h`log, h`created
      ensures Working() && old(h.log) <= h.log && old(h.held) <= h.held && h.parts.Keys <= old(h.parts).Keys
      ensures reply.Done? && k in h.parts ==> Converged(m, h.parts, k)
      ensures k == Drive ==> h.TenderdashDown() || Converged(m, h.parts, Drive)
      ensures reply.Done? ==> KeepsImage(q, k)
      ensures h.calm && MayPin(q, h.staged, k) ==> (reply.Done? <==> KeepsImage(q, k))
      ensures h.calm ==> h.parts - {k} == old(h.parts) - {k}
    {
      hide Fits, History, Drifted, HeldDown, PartFits;
      PinnedConfig(m, h.parts, h.created, k);
      var b := q.baseline.parts[k];
      reply := Failed;
      if q.pins[k] !in h.staged || (q.deploy && q.pins[k] != b.image) {
        return;
      }
      if k in h.parts {
        var c := h.parts[k];
        if c.config != b.config || (c.image != b.image && c.image != q.pins[k]) {
          return;
        }
        if c.image != q.pins[k] {
          if c.id == b.id {
            reply := Replace(k);
          }
          return;
        }
      }
      reply := Done;
    }

    /** A container of the component on its pin: checked, replaced unless it is
      * there already, created if it is missing. */
    method Provide(k: Component) returns (reply: Reply)
      requires Working() && h.guarded && k in q.pins
      requires k == Drive ==> h.TenderdashDown() || Converged(m, h.parts, Drive)
      requires k == Tenderdash && m.drain ==> Starting(m)
      modifies h`parts, h`held, h`log, h`created
      ensures Working() && old(h.log) <= h.log
      ensures old(h.held) <= h.held && h.parts.Keys <= old(h.parts).Keys + {k}
      ensures reply.Done? ==> Converged(m, h.parts, k) && KeepsImage(q, k)
      ensures h.calm && MayPin(q, h.staged, k) ==> (reply.Done? <==> KeepsImage(q, k))
      ensures h.calm ==> h.parts - {k} == old(h.parts) - {k}
    {
      hide Fits, History, Drifted, HeldDown, PartFits, MayPin;
      reply := Clear(k);
      if reply.Done? && k !in h.parts {
        Unconverged(m, h.parts, h.created, k);
        reply := h.Create(k);
      }
    }

    /** One component of the operation: provided, started, recorded. */
    method Converge(k: Component) returns (reply: Reply)
      requires Working() && h.guarded && k in q.pins
      requires k == Drive ==> h.TenderdashDown() || Converged(m, h.parts, Drive)
      requires k == Tenderdash && m.drain ==> Starting(m) && h.listenerSeen
      modifies this`m, h`marker, h`guarded, h`parts, h`held, h`log, h`created, h`native
      ensures h.Orderly() && old(h.log) <= h.log
      ensures old(h.held) - {k} <= h.held && h.parts.Keys <= old(h.parts).Keys + {k}
      ensures m == old(m).(completed := m.completed)
      ensures Unfinished() && (reply.Done? ==> Working() && m.completed.Keys == old(m.completed).Keys + {k})
      ensures h.native.tor == old(h.native).tor && (h.calm && k != Core ==> h.native == old(h.native))
      ensures reply.Done? ==> KeepsImage(q, k) && k in h.parts && h.parts[k].running
      ensures h.calm && MayPin(q, h.staged, k) ==> (reply.Done? <==> KeepsImage(q, k))
      ensures h.calm ==> h.parts - {k} == old(h.parts) - {k}
    {
      hide Fits, History, Drifted, HeldDown, PartFits, MayPin;
      reply := Provide(k);
      if !reply.Done? {
        return;
      }
      reply := Settle(k);
    }

    /** Tenderdash may be started once Drive's listener was seen. */
    method AwaitDrive() returns (reply: Reply)
      requires Working() && m.drain && Drive in m.completed
      modifies this`m, h`marker, h`guarded, h`listenerSeen
      ensures h.Orderly() && Unfinished() && m == old(m).(dependency := m.dependency)
      ensures reply.Done? ==> Working() && Starting(m) && h.listenerSeen
      ensures h.guarded == old(h.guarded)
      ensures h.calm ==> reply.Done?
    {
      hide History, PartFits;
      CompletedIsConverged(m, h.parts, h.created, Drive);
      reply := h.Listen();
      if reply.Done? {
        reply := Note(StartRequested);
      }
    }

    /** Everything else is checked again before a component is touched, and
      * Tenderdash waits for Drive's listener. */
    method Prepare(k: Component) returns (reply: Reply)
      requires Working() && k in q.pins
      requires k == Tenderdash && m.drain ==> Drive in m.completed
      modifies this`m, h`marker, h`guarded, h`listenerSeen
      ensures h.Orderly() && Unfinished() && m == old(m).(dependency := m.dependency)
      ensures k != Tenderdash ==> m == old(m)
      ensures reply.Done? ==> Working() && h.guarded && (k == Tenderdash && m.drain ==> Starting(m) && h.listenerSeen)
      ensures h.calm && Intact(q, h) ==> reply.Done?
    {
      hide Fits, History, HeldDown, Intact, Guard;
      if h.calm && Intact(q, h) {
        GuardPasses(m, h);
      }
      reply := h.Inspect(m);
      if reply.Done? && k == Tenderdash && m.drain {
        reply := AwaitDrive();
      }
    }

    /** Converges one component; a started Tenderdash is noted. */
    method Bring(k: Component) returns (reply: Reply)
      requires Working() && h.guarded && k in q.pins
      requires k == Drive ==> h.TenderdashDown() || Converged(m, h.parts, Drive)
      requires k == Tenderdash && m.drain ==> Starting(m) && h.listenerSeen && Drive in m.completed
      modifies this`m, h`marker, h`guarded, h`parts, h`held, h`log, h`created, h`native
      ensures h.Orderly() && old(h.log) <= h.log
      ensures old(h.held) - {k} <= h.held && h.parts.Keys <= old(h.parts).Keys + {k}
      ensures m == old(m).(completed := m.completed, dependency := m.dependency)
      ensures k != Tenderdash ==> m.dependency == old(m).dependency
      ensures Unfinished() && (reply.Done? ==> Working() && m.completed.Keys == old(m.completed).Keys + {k})
      ensures reply.Done? && k == Tenderdash && m.drain ==> Starting(m)
      ensures reply.Done? ==> KeepsImage(q, k)
      ensures h.calm && old(Intact(q, h)) ==> Intact(q, h) && (reply.Done? <==> KeepsImage(q, k))
    {
      hide Fits, History, HeldDown, MayPin, OthersIntact, KeepsImage;
      ghost var before := h.parts;
      ghost var intact := h.calm && Intact(q, h);
      assert intact ==> MayPin(q, h.staged, k);
      reply := Converge(k);
      if intact {
        OthersStayIntact(q, before, h.parts, k);
      }
      if reply.Done? && k == Tenderdash && m.drain {
        reply := Note(Started);
      }
    }

    /** One turn of the loop over the components. */
    method Turn(k: Component) returns (reply: Reply)
      requires Working() && k in q.pins
      requires k == Core || k == Drive ==> m.drain && !Starting(m) ==> h.TenderdashDown()
      requires k == Tenderdash && m.drain ==> Drive in m.completed
      modifies this`m, h`marker, h`guarded, h`parts, h`held, h`log, h`created, h`native, h`listenerSeen
      ensures h.Orderly() && old(h.log) <= h.log
      ensures m == old(m).(completed := m.completed, dependency := m.dependency)
      ensures Unfinished() && (reply.Done? ==> Working() && m.completed.Keys == old(m.completed).Keys + {k})
      ensures k != Tenderdash && old(h.TenderdashDown()) ==> h.TenderdashDown()
      ensures reply.Done? && m.drain && k == Tenderdash ==> Starting(m)
      ensures k != Tenderdash ==> m.dependency == old(m).dependency
      ensures reply.Done? ==> KeepsImage(q, k)
      ensures h.calm && old(Intact(q, h)) ==> Intact(q, h) && (reply.Done? <==> KeepsImage(q, k))
    {
      hide Fits, History, HeldDown, Intact, KeepsImage;
      if k == Drive && (m.drain ==> Starting(m)) {
        DriveReady(m, h.parts, h.created);
      }
      reply := Prepare(k);
      if reply.Done? {
        reply := Bring(k);
      }
    }

    /** All components of the operation, in dependency order. */
    method TurnAll() returns (reply: Reply)
      requires Working() && (m.drain && !Starting(m) ==> h.TenderdashDown())
      modifies this`m, h`marker, h`guarded, h`parts, h`held, h`log, h`created, h`native, h`listenerSeen
      ensures h.Orderly() && old(h.log) <= h.log
      ensures Unfinished() && (reply.Done? ==> Working() && m.completed.Keys == q.pins.Keys && DeployKeeps(q))
      ensures h.calm && old(Intact(q, h)) ==> Intact(q, h) && (reply.Done? <==> DeployKeeps(q))
      ensures MovesDrive(q) && old(h.TenderdashDown()) ==> !reply.Done? && h.TenderdashDown()
    {
      hide Fits, History, HeldDown, Intact, KeepsImage;
      reply := Done;
      for i := 0 to |Order|
        invariant reply.Done? && Working() && old(h.log) <= h.log
        invariant m == old(m).(completed := m.completed, dependency := m.dependency)
        invariant forall j :: 0 <= j < i && Order[j] in q.pins ==> Order[j] in m.completed
        invariant forall j :: 0 <= j < i && Order[j] in q.pins ==> KeepsImage(q, Order[j])
        invariant i <= 1 && m.drain && !Starting(m) ==> h.TenderdashDown()
        invariant MovesDrive(q) && old(h.TenderdashDown()) ==> i <= 1 && h.TenderdashDown()
        invariant h.calm && old(Intact(q, h)) ==> Intact(q, h)
      {
        if Order[i] in q.pins {
          if i == 2 {
            DrainPins(m, h.parts, h.created);
            assert Order[1] == Drive;
          }
          reply := Turn(Order[i]);
          if !reply.Done? {
            return;
          }
        }
      }
      OrderCovers(q.pins);
      PinsCompleted(m, h.parts, h.created);
    }

    /** The final observation and the marker's completion. */
    method Conclude() returns (reply: Reply)
      requires Working() && m.completed.Keys == q.pins.Keys
      modifies this`m, h`marker, h`guarded
      ensures h.Orderly()
      ensures reply.Done? ==> h.marker == Some(m) && m.complete && m.operation == q
      ensures reply.Done? ==> Fits(m, h.parts, h.created) && AtBaseline(q.baseline, h.parts, q.pins.Keys)
      ensures h.calm && Intact(q, h) ==> reply.Done?
    {
      hide History, HeldDown, PartFits, DrainFits;
      if h.calm && Intact(q, h) {
        CompletedAtBaseline(m, h);
      }
      reply := h.Ask();
      if reply.Done? && !Preserved(q, h, q.pins.Keys) {
        reply := Failed;
      }
      if reply.Done? {
        FinalFits(m, h.parts, h.created);
        m := m.(complete := true);
        reply := h.Save(m);
      }
    }

    /** Opens this operation on a host with no unfinished one. */
    method Begin() returns (reply: Reply)
      requires h.Orderly() && (h.marker.Some? ==> h.marker.value.complete)
      modifies this`m, h`marker, h`guarded, h`turn, h`created
      ensures h.Orderly()
      ensures reply.Done? ==> Working()
      ensures h.calm && Startable(q, h) ==> reply.Done?
    {
      hide History, HeldDown;
      reply := h.Ask();
      if !reply.Done? {
        return;
      }
      if !Preserved(q, h, if q.deploy then q.pins.Keys else {}) || !AtSource(q, h.parts)
         || (Drive in q.pins && Tenderdash in h.parts && q.pins[Drive] !in h.staged) {
        return Failed;
      }
      var drain := NeedsDrain(q, h.parts);
      if drain && Tenderdash !in q.pins {
        return Failed;
      }
      m := Marker(q, map k | k in q.pins :: h.parts[k].config, map[], false, drain, Untouched);
      BegunFits(m, h.parts);
      reply := h.Open(m);
    }

    /** One run of the operation. Any call may fail, lose its reply or be the
      * last thing the run does. */
    method Apply() returns (reply: Reply)
      requires h.Orderly() && !h.listenerSeen && !h.guarded
      modifies this`m, h`marker, h`guarded, h`parts, h`held, h`log, h`created, h`native, h`listenerSeen, h`turn
      ensures h.Orderly() && old(h.log) <= h.log
      ensures reply.Done? ==> h.marker.Some? && h.marker.value.operation == q && h.marker.value.complete
      ensures reply.Done? && old(h.marker.Some? ==> !h.marker.value.complete || h.marker.value.operation.id != q.id) ==>
        Fits(h.marker.value, h.parts, h.created) && AtBaseline(q.baseline, h.parts, q.pins.Keys)
      ensures old(h.marker.Some? && h.marker.value.complete && h.marker.value.operation.id == q.id) ==>
        h.marker == old(h.marker) && h.parts == old(h.parts) && h.log == old(h.log)
      ensures old(h.marker.Some? && !h.marker.value.complete && h.marker.value.operation != q) ==>
        h.marker == old(h.marker) && h.parts == old(h.parts) && h.log == old(h.log)
      ensures reply.Done? && !old(Replayed(q, h)) ==> DeployKeeps(q)
      ensures h.calm && old(Ready(q, h)) ==> Intact(q, h) && (reply.Done? <==> old(Replayed(q, h)) || DeployKeeps(q))
      ensures h.calm && old(Ready(q, h)) && !old(Replayed(q, h)) && MovesDrive(q) ==>
        !reply.Done? && h.TenderdashDown() && Unfinished()
    {
      hide Fits, History, HeldDown, Intact, Guard, KeepsImage, DeployKeeps, MovesDrive;
      reply := h.Ask();
      if !reply.Done? {
        return;
      }
      if h.marker.Some? && h.marker.value.operation.id == q.id {
        m := h.marker.value;
        if m.operation != q {
          return Failed;
        }
      } else if h.marker.Some? && !h.marker.value.complete {
        return Failed;
      } else {
        reply := Begin();
        if !reply.Done? {
          return;
        }
      }
      if h.calm && old(Ready(q, h)) {
        GuardPasses(m, h);
        if !m.complete && MovesDrive(q) {
          MovingDriveDrains(m, h);
        }
      }
      reply := h.Inspect(m);
      if !reply.Done? {
        return;
      }
      if m.complete {
        reply := h.Ask();
        return;
      }
      if m.drain && !Starting(m) {
        reply := Withdraw();
        if !reply.Done? {
          return;
        }
      }
      reply := TurnAll();
      if reply.Done? {
        reply := Conclude();
      }
    }
  }
  // ------------------------------------------------------- main theorems

  /** Any number of runs of any operations on one host, each ending in any way.
    * Drive is stopped, removed or created only while Tenderdash is down; a
    * drained Tenderdash is started only after Drive's listener was seen in that
    * run; no completed container is stopped or removed; only selected
    * components are touched; and no operation creates a component twice. */
  method AllRuns(h: Host, operations: seq<Operation>)
    requires h.Orderly()
    modifies h
    ensures h.Orderly() && old(h.log) <= h.log
    ensures forall i :: 0 <= i < |h.log| ==> Allowed(h.log[i])
    ensures CreatedOnce(h.log)
  {
    hide Fits, HeldDown, Allowed, CreatedOnce;
    for n := 0 to |operations|
      invariant h.Orderly() && old(h.log) <= h.log
    {
      h.Meanwhile();
      var worker := new Worker(h, operations[n]);
      var reply := worker.Apply();
    }
  }

  /** One such deploy on an undisturbed host whose two services were running:
    * nothing fails but the deploy itself, and Tenderdash is left stopped. */
  method DeployThatMovesDrive() returns (h: Host, reply: Reply)
    ensures h.calm && h.marker.Some? && !h.marker.value.complete && h.marker.value.operation.deploy
    ensures Tenderdash in h.marker.value.operation.baseline.parts
    ensures h.marker.value.operation.baseline.parts[Tenderdash].running
    ensures !reply.Done? && h.TenderdashDown()
  {
    hide Fits, History, HeldDown, Ready, Intact;
    var drive := Container(1, "1", "", true, 1);
    var tenderdash := Container(2, "1", "", true, 1);
    h := new Host(map[Drive := drive, Tenderdash := tenderdash], {Drive, Tenderdash});
    h.calm, h.staged := true, {"1", "2"};
    var baseline := Baseline(h.parts, h.companions, h.native, h.files);
    var q := Operation("deploy", true, map[Drive := "2", Tenderdash := "1"], baseline);
    PlannedIsReady(q, h);
    assert MovesDrive(q) by {
      assert q.pins[Drive][0] == '2' && drive.image[0] == '1';
    }
    var worker := new Worker(h, q);
    reply := worker.Apply();
  }

  /** At most one container is created per component and operation. */
  lemma CreatedAtMostOnce(log: seq<Event>, turn: nat, k: Component)
    requires CreatedOnce(log)
    ensures |set i | 0 <= i < |log| && log[i].act.Create? && log[i].turn == turn && log[i].part == k| <= 1
  {
    var creations := set i | 0 <= i < |log| && log[i].act.Create? && log[i].turn == turn && log[i].part == k;
    if creations != {} {
      var i :| i in creations;
      assert creations == {i};
    }
  }

  /** Once Tenderdash may be started, Drive is on its pin. */
  lemma StartingMeansDriveConverged(m: Marker, cs: map<Component, Container>, created: set<Component>)
    requires Fits(m, cs, created) && Starting(m)
    ensures Converged(m, cs, Drive) && cs[Drive].id == m.completed[Drive]
    ensures cs[Drive].config == m.operation.baseline.parts[Drive].config
  {
    assert PartFits(m, cs, created, Drive);
  }

  /** A complete operation has every selected component on its pin, in the
    * recorded container, with the original configuration. */
  lemma CompleteInstallsPins(m: Marker, cs: map<Component, Container>, created: set<Component>, k: Component)
    requires Fits(m, cs, created) && m.complete && k in m.operation.pins
    ensures k in cs && cs[k].image == m.operation.pins[k] && k in m.completed && cs[k].id == m.completed[k]
    ensures k in m.operation.baseline.parts && cs[k].config == m.operation.baseline.parts[k].config
  {
    assert PartFits(m, cs, created, k);
  }
}
