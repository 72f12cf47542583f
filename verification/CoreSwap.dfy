/** Replacing Core's image on one node: its dependants are withdrawn first, Core
  * stops only in the quiet part of the DKG cycle, and every step is journaled
  * on the host before the next one, so an interrupted run resumes at its step. */
module CoreSwap {
  import opened Claims
  import opened Wrappers

  type Image = string

  datatype Service = Core | Tenderdash | Dapi | Drive | Gateway | Miner

  /** The Platform services that need Core, in the order they are withdrawn. */
  const Dependants: seq<Service> := [Tenderdash, Dapi, Drive]

  datatype Step = Start | Withdrawn | Replaced | Finished

  /** The images, and the Platform containers recorded before the rollout. */
  datatype Change = Change(id: string, before: Image, after: Image, preserve: map<Service, nat>)

  datatype Marker = Marker(change: Change, step: Step, applied: bool)

  // ----------------------------------------------------------- the history

  datatype Act = Stop(service: Service) | Recreate | Begin(service: Service)

  /** One request carried out on the node, with what was up at that moment,
    * what somebody else started since it was stopped on command, whether this
    * run saw Core down or at a quiet height, and whether it saw Drive's
    * listener. */
  datatype Event = Event(
    act: Act, up: set<Service>, strayed: set<Service>, clear: bool, listenerSeen: bool, marker: Marker)

  function DependantSet(validator: bool): set<Service> {
    if validator then {Tenderdash, Dapi, Drive} else {}
  }

  function PlatformSet(validator: bool): set<Service> {
    DependantSet(validator) + if validator then {Gateway} else {}
  }

  predicate TouchesCore(e: Event) {
    e.act == Stop(Core) || e.act == Recreate
  }

  /** Core goes down under a service that depends on it. */
  predicate Exposed(validator: bool, e: Event) {
    TouchesCore(e) && !(e.up !! DependantSet(validator))
  }

  predicate Allowed(validator: bool, e: Event) {
    && !e.marker.applied
    && (TouchesCore(e) ==>
          && e.up * DependantSet(validator) <= e.strayed
          && e.marker.step == Withdrawn && (validator ==> e.clear))
    && (e.act == Stop(Drive) ==> Tenderdash !in e.up && e.marker.step == Start)
    && (e.act.Begin? ==> e.marker.step == Replaced && e.act.service != Core)
    && (e.act == Begin(Tenderdash) ==> e.listenerSeen)
  }

  /** Core went down like that since a moment. */
  predicate ExposedSince(validator: bool, log: seq<Event>, since: nat) {
    exists k :: since <= k < |log| && Exposed(validator, log[k])
  }

  /** Since a moment Core went down only under dependants of this set. */
  predicate ExposedUnder(validator: bool, log: seq<Event>, since: nat, strayed: set<Service>) {
    forall k :: since <= k < |log| && Exposed(validator, log[k]) ==> log[k].up * DependantSet(validator) <= strayed
  }

  lemma NothingExposed(validator: bool, log: seq<Event>)
    ensures !ExposedSince(validator, log, |log|)
    ensures forall strayed :: ExposedUnder(validator, log, |log|, strayed)
  {
  }

  lemma Unexposed(validator: bool, log: seq<Event>, more: seq<Event>, since: nat)
    requires since <= |log| && log <= more && !ExposedSince(validator, more, |log|)
    ensures ExposedSince(validator, more, since) <==> ExposedSince(validator, log, since)
    ensures forall strayed :: ExposedUnder(validator, log, since, strayed) ==> ExposedUnder(validator, more, since, strayed)
  {
    hide Exposed;
    if ExposedSince(validator, log, since) {
      var k :| since <= k < |log| && Exposed(validator, log[k]);
      assert more[k] == log[k];
    }
    assert forall k :: since <= k < |log| ==> more[k] == log[k];
  }

  // -------------------------------------------------------------- the node

  class Node {
    const validator: bool
    const mines: bool
    var calm: bool              // nothing fails and nobody else acts
    var up: set<Service>
    var held: set<Service>      // stopped on command, not started since
    ghost var strayed: set<Service>   // stopped on command, then started by somebody else
    var image: Option<Image>    // of Core's container, if there is one
    var containers: map<Service, nat>   // by their identities
    var marker: Option<Marker>
    var clear: bool
    var listenerSeen: bool
    ghost var log: seq<Event>

    /** What holds between any two steps of any run. */
    ghost predicate Orderly()
      reads this
    {
      && (forall i :: 0 <= i < |log| ==> Allowed(validator, log[i]))
      && up !! held
      && strayed !! held
      && (marker.Some? && marker.value.step == Withdrawn ==> DependantSet(validator) <= held + strayed)
      && (marker.Some? && marker.value.step == Replaced ==> image == Some(marker.value.change.after))
      && (marker.Some? ==> (marker.value.applied <==> marker.value.step == Finished))
    }

    constructor (validator: bool, mines: bool, image: Option<Image>, up: set<Service>, containers: map<Service, nat>)
      ensures Orderly() && log == [] && marker == None && !clear && !listenerSeen
      ensures this.validator == validator && this.mines == mines && this.image == image && this.up == up
      ensures this.containers == containers
    {
      this.validator, this.mines, this.image, this.up, this.containers := validator, mines, image, up, containers;
      calm, held, strayed, marker, clear, listenerSeen, log := false, {}, {}, None, false, false, [];
    }

    /** Services crash and restart, except those stopped on command. */
    method Drift()
      requires Orderly()
      modifies `up
      ensures Orderly() && (calm ==> up == old(up))
    {
      if !calm {
        var now: set<Service> :| now !! held;
        up := now;
      }
    }

    /** An acknowledgement may be lost, and the run may die with it. */
    method Answered(acted: bool) returns (reply: Reply)
      requires calm ==> acted
      ensures (reply.Done? ==> acted) && (calm ==> reply.Done?)
    {
      reply :| true;
      if calm {
        reply := Done;
      } else if reply.Done? && !acted {
        reply := Failed;
      }
    }

    /** Reads and waits that change nothing, and may fail. */
    method Ask() returns (reply: Reply)
      ensures calm ==> reply.Done?
    {
      reply := Answered(true);
    }

    /** Between runs anybody may start what a run had stopped; only Core's
      * container is left alone while a change is unfinished. */
    method Meanwhile()
      requires Orderly()
      modifies `up, `held, `strayed, `image, `containers, `clear, `listenerSeen, `calm
      ensures Orderly() && !clear && !listenerSeen
      ensures marker.Some? && !marker.value.applied ==>
        image == old(image) && held <= old(held) && strayed == old(strayed) + (old(held) - held)
    {
      clear, listenerSeen, calm, containers := false, false, false, *;
      if marker.None? || marker.value.applied {
        held, strayed, image := {}, {}, *;
      } else {
        var still: set<Service> :| still <= held;
        held, strayed := still, strayed + (held - still);
      }
      Drift();
      calm := *;
    }

    /** Somebody else starts a service that a run had stopped. */
    method StartedByOthers(service: Service)
      requires Orderly() && service in held
      modifies `up, `held, `strayed
      ensures Orderly() && up == old(up) + {service} && held == old(held) - {service}
      ensures strayed == old(strayed) + {service}
    {
      up, held, strayed := up + {service}, held - {service}, strayed + {service};
    }

    method Halt(service: Service) returns (reply: Reply)
      requires Orderly() && marker.Some? && !marker.value.applied
      requires service == Core ==>
        marker.value.step == Withdrawn && (validator ==> clear)
      requires service == Drive ==> marker.value.step == Start && Tenderdash in held
      modifies `up, `held, `strayed, `log
      ensures Orderly() && old(log) <= log && old(held) <= held && strayed <= old(strayed)
      ensures reply.Done? ==> service in held && service !in strayed
      ensures log == old(log) ||
        (|log| == |old(log)| + 1 && log[|old(log)|].act == Stop(service) && log[|old(log)|].strayed == old(strayed))
      ensures calm ==> reply.Done? && up == old(up) - {service} && |log| == |old(log)| + 1 && log[|old(log)|].up == old(up)
    {
      Drift();
      var acts: bool := *;
      acts := acts || calm;
      if acts {
        log := log + [Event(Stop(service), up, strayed, clear, listenerSeen, marker.value)];
        up, held, strayed := up - {service}, held + {service}, strayed - {service};
      }
      reply := Answered(acts);
    }

    /** Compose removes Core's container, creates it from the release's render
      * and starts it; it may stop half way. */
    method RecreateCore() returns (reply: Reply)
      requires Orderly() && marker.Some? && !marker.value.applied
      requires marker.value.step == Withdrawn && (validator ==> clear)
      modifies `up, `held, `log, `image
      ensures Orderly() && old(log) <= log
      ensures log == old(log) ||
        (|log| == |old(log)| + 1 && log[|old(log)|].act == Recreate && log[|old(log)|].strayed == strayed)
      ensures reply.Done? ==> image == Some(marker.value.change.after)
      ensures calm ==> reply.Done? && up == old(up) + {Core} && |log| == |old(log)| + 1 && log[|old(log)|].up == old(up)
    {
      Drift();
      var removed: bool, acts: bool := *, *;
      acts := acts || calm;
      if removed || acts {
        log := log + [Event(Recreate, up, strayed, clear, listenerSeen, marker.value)];
        up, image := up - {Core}, None;
      }
      if acts {
        up, held, image := up + {Core}, held - {Core}, Some(marker.value.change.after);
      }
      reply := Answered(acts);
    }

    method Launch(service: Service) returns (reply: Reply)
      requires Orderly() && marker.Some? && marker.value.step == Replaced && service != Core
      requires service == Tenderdash ==> listenerSeen
      modifies `up, `held, `log
      ensures Orderly() && old(log) <= log
      ensures forall k :: |old(log)| <= k < |log| ==> log[k].act.Begin?
      ensures calm ==> reply.Done? && up == old(up) + {service}
    {
      Drift();
      var acts: bool := *;
      acts := acts || calm;
      if acts {
        log := log + [Event(Begin(service), up, strayed, clear, listenerSeen, marker.value)];
        up, held := up + {service}, held - {service};
      }
      reply := Answered(acts);
    }

    /** Replaces the marker: all or nothing. */
    method Save(m: Marker) returns (reply: Reply)
      requires Orderly()
      requires m.step == Withdrawn ==> DependantSet(validator) <= held + strayed
      requires m.step == Replaced ==> image == Some(m.change.after)
      requires m.applied <==> m.step == Finished
      modifies `marker
      ensures Orderly() && (marker == old(marker) || marker == Some(m))
      ensures reply.Done? ==> marker == Some(m)
      ensures calm ==> reply.Done?
    {
      var acts: bool := *;
      acts := acts || calm;
      if acts {
        marker := Some(m);
      }
      reply := Answered(acts);
    }

    /** Whether Core runs its old image; a run that sees it does not need no
      * quiet height. */
    method RunsCore(before: Image) returns (running: bool)
      modifies `clear
      ensures running <==> image == Some(before) && Core in up
      ensures running ==> clear == old(clear)
      ensures !running ==> clear
    {
      running := image == Some(before) && Core in up;
      clear := clear || !running;
    }

    /** Waits for a height in the quiet part of the 24-block DKG cycle. */
    method WaitQuiet() returns (reply: Reply, height: nat)
      modifies `clear
      ensures reply.Done? ==> clear && 13 <= height % 24 <= 23
      ensures !reply.Done? ==> clear == old(clear)
      ensures calm ==> reply.Done?
    {
      height :| true;
      if calm {
        height := 13;
      }
      reply := Answered(13 <= height % 24);
      clear := clear || reply.Done?;
    }

    method WaitListener() returns (reply: Reply)
      modifies `listenerSeen
      ensures reply.Done? ==> listenerSeen
      ensures calm ==> reply.Done?
    {
      var seen: bool := *;
      listenerSeen := seen || calm;
      reply := Answered(listenerSeen);
    }
  }

  // ------------------------------------------------------------- one run

  class Worker {
    const n: Node
    const c: Change
    var m: Marker

    constructor (n: Node, c: Change)
      ensures this.n == n && this.c == c
    {
      this.n, this.c := n, c;
      m := Marker(c, Start, false);
    }

    ghost predicate Working(step: Step)
      reads this, n
    {
      n.Orderly() && n.marker == Some(m) && m.change == c && m.step == step
    }

    method Advance(step: Step) returns (reply: Reply)
      requires n.Orderly() && n.marker == Some(m) && m.change == c
      requires step == Withdrawn ==> DependantSet(n.validator) <= n.held + n.strayed
      requires step == Replaced ==> n.image == Some(c.after)
      modifies this`m, n`marker
      ensures n.Orderly() && (reply.Done? ==> Working(step)) && (n.calm ==> reply.Done?)
    {
      m := m.(step := step, applied := step == Finished);
      reply := n.Save(m);
    }

    /** Mining and Platform depend on Core: they are withdrawn gracefully,
      * Tenderdash before Drive. */
    method Withdraw() returns (reply: Reply)
      requires Working(Start)
      modifies this`m, n`up, n`held, n`strayed, n`log, n`marker
      ensures n.Orderly() && old(n.log) <= n.log && (reply.Done? ==> Working(Withdrawn)) && (n.calm ==> reply.Done?)
      ensures reply.Done? ==> n.strayed !! DependantSet(n.validator)
      ensures n.calm && Gateway in old(n.up) ==> Gateway in n.up
      ensures !ExposedSince(n.validator, n.log, |old(n.log)|)
    {
      reply := Done;
      var miner: bool := *;
      if n.mines && miner {
        reply := n.Halt(Miner);
      }
      if n.validator {
        for i := 0 to |Dependants|
          invariant n.Orderly() && old(n.log) <= n.log && n.marker == Some(m) && m == old(m)
          invariant reply.Done? ==> forall j :: 0 <= j < i ==> Dependants[j] in n.held && Dependants[j] !in n.strayed
          invariant forall k :: |old(n.log)| <= k < |n.log| ==> !TouchesCore(n.log[k])
          invariant n.calm ==> reply.Done? && (Gateway in old(n.up) ==> Gateway in n.up)
        {
          if reply.Done? {
            assert i == 2 ==> Dependants[0] in n.held;
            reply := n.Halt(Dependants[i]);
          }
        }
        assert reply.Done? ==> forall d :: d in DependantSet(true) ==> d in n.held && d !in n.strayed by {
          assert DependantSet(true) == {Dependants[0], Dependants[1], Dependants[2]};
        }
      }
      if reply.Done? {
        reply := Advance(Withdrawn);
      }
    }

    /** There is a container of Core, and it does not run the new image yet. */
    predicate StopsCore()
      reads this, n
    {
      n.image.Some? && !(n.image == Some(c.after) && Core in n.up)
    }

    /** Core is stopped before it is recreated, so that Compose never times out
      * half way. */
    method SwapCore() returns (reply: Reply)
      requires Working(Withdrawn)
      modifies n`up, n`held, n`strayed, n`log, n`image, n`clear
      ensures Working(Withdrawn) && old(n.log) <= n.log && (reply.Done? ==> n.image == Some(c.after))
      ensures forall k :: |old(n.log)| <= k < |n.log| ==> n.log[k].up * DependantSet(n.validator) <= old(n.strayed)
      ensures n.calm ==> reply.Done? && n.up == old(n.up) + {Core}
      ensures n.calm ==> forall k :: |old(n.log)| <= k < |n.log| ==> n.log[k].up <= old(n.up)
      ensures n.calm && old(n.image.Some?) ==>
        |old(n.log)| < |n.log| && n.log[|old(n.log)|].act == Stop(Core) && n.log[|old(n.log)|].up == old(n.up)
    {
      reply := ClearTheWay();
      if reply.Done? && n.image.Some? {
        reply := n.Halt(Core);
      }
      if reply.Done? {
        reply := n.RecreateCore();
      }
    }

    /** Recreates Core unless it already runs the new image. */
    method Replace() returns (reply: Reply)
      requires Working(Withdrawn)
      modifies this`m, n`up, n`held, n`strayed, n`log, n`marker, n`image, n`clear
      ensures n.Orderly() && old(n.log) <= n.log && (reply.Done? ==> Working(Replaced))
      ensures ExposedUnder(n.validator, n.log, |old(n.log)|, old(n.strayed))
      ensures n.calm ==> reply.Done? && n.up == old(n.up) + {Core}
      ensures old(n.strayed) !! DependantSet(n.validator) ==> !ExposedSince(n.validator, n.log, |old(n.log)|)
      ensures n.calm && old(StopsCore()) ==>
        (ExposedSince(n.validator, n.log, |old(n.log)|) <==> !(old(n.up) !! DependantSet(n.validator)))
    {
      hide Allowed;
      reply := Done;
      if !(n.image == Some(c.after) && Core in n.up) {
        reply := SwapCore();
      }
      if reply.Done? && n.image != Some(c.after) {
        reply := Failed;
      }
      if reply.Done? {
        reply := Advance(Replaced);
      }
    }

    /** A validator's Core that still runs waits for the quiet part of the cycle;
      * then the release renders the new image. */
    method ClearTheWay() returns (reply: Reply)
      requires Working(Withdrawn)
      modifies n`clear
      ensures Working(Withdrawn) && (reply.Done? && n.validator ==> n.clear) && (n.calm ==> reply.Done?)
    {
      reply := Done;
      if n.validator {
        var running := n.RunsCore(c.before);
        if running {
          var height;
          reply, height := n.WaitQuiet();
        }
      }
      if reply.Done? {
        reply := n.Ask();
      }
    }

    /** Restores the dependants once Core is synchronised: Drive, then, after
      * its listener was seen, Tenderdash and the rest. */
    method Restore() returns (reply: Reply)
      requires Working(Replaced)
      modifies this`m, n`up, n`held, n`log, n`marker, n`listenerSeen
      ensures n.Orderly() && old(n.log) <= n.log && (reply.Done? ==> Working(Finished))
      ensures !ExposedSince(n.validator, n.log, |old(n.log)|)
      ensures n.calm ==> reply.Done? && n.up >= old(n.up) + DependantSet(n.validator) + if n.mines then {Miner} else {}
    {
      reply := n.Ask();
      if reply.Done? && n.validator {
        reply := RestorePlatform();
      }
      if reply.Done? && n.mines {
        reply := n.Launch(Miner);
      }
      if reply.Done? {
        reply := Advance(Finished);
      }
    }

    method RestorePlatform() returns (reply: Reply)
      requires Working(Replaced)
      modifies n`up, n`held, n`log, n`listenerSeen
      ensures Working(Replaced) && old(n.log) <= n.log
      ensures forall k :: |old(n.log)| <= k < |n.log| ==> n.log[k].act.Begin?
      ensures n.calm ==> reply.Done? && n.up == old(n.up) + {Tenderdash, Dapi, Drive}
    {
      reply := n.Launch(Drive);
      if reply.Done? {
        reply := n.WaitListener();
      }
      if reply.Done? {
        reply := n.Launch(Tenderdash);
      }
      if reply.Done? {
        reply := n.Launch(Dapi);
      }
    }

    /** Opens this change, or finds how far an earlier run of it came. */
    method Enter() returns (reply: Reply)
      requires n.Orderly()
      modifies this`m, n`marker
      ensures n.Orderly()
      ensures reply.Done? ==> n.marker == Some(m) && m.change == c && (m.step == Start || n.marker == old(n.marker))
      ensures n.marker != old(n.marker) ==>
        old(n.marker.None? || (n.marker.value.applied && n.marker.value.change.id != c.id)) && n.image == Some(c.before)
      ensures n.calm && old(Enterable()) ==> reply.Done?
    {
      reply := n.Ask();
      if !reply.Done? {
        return;
      }
      if n.marker.Some? && n.marker.value.change.id == c.id {
        m := n.marker.value;
        if m.change != c || (m.step == Start && n.image != Some(c.before)) {
          reply := Failed;
        }
        return;
      }
      if n.marker.Some? && !n.marker.value.applied {
        return Failed;
      }
      if n.image != Some(c.before) {
        return Failed;
      }
      m := Marker(c, Start, false);
      reply := n.Save(m);
    }

    /** The Platform services are still the recorded containers. */
    predicate Recorded()
      reads n
    {
      forall s :: s in PlatformSet(n.validator) ==> s in n.containers && s in c.preserve && n.containers[s] == c.preserve[s]
    }

    /** Core is up on the new image, and so is everything the change withdrew, in
      * the recorded containers. */
    predicate Restored()
      reads n
    {
      && n.image == Some(c.after) && {Core} + PlatformSet(n.validator) <= n.up && (n.mines ==> Miner in n.up)
      && Recorded()
    }

    /** The change may start here, or an earlier run of it began. */
    predicate Enterable()
      reads this, n
    {
      if n.marker.Some? && n.marker.value.change.id == c.id then
        n.marker.value.change == c && (n.marker.value.step == Start ==> n.image == Some(c.before))
      else
        (n.marker.Some? ==> n.marker.value.applied) && n.image == Some(c.before)
    }

    /** A node on which the change may start, or an earlier run left it. */
    predicate Ready()
      reads this, n
    {
      && Enterable() && Recorded() && (n.validator ==> Gateway in n.up)
      && (n.marker.Some? && n.marker.value.change.id == c.id ==>
            && (n.marker.value.step == Replaced ==> Core in n.up)
            && (n.marker.value.step == Finished ==> Restored()))
    }

    /** An earlier run of this change was interrupted after the withdrawal. */
    predicate Resumes()
      reads this, n
    {
      n.marker == Some(Marker(c, Withdrawn, false))
    }

    /** The steps up to Core's replacement that earlier runs did not record. */
    method ReachReplaced() returns (reply: Reply)
      requires n.Orderly() && n.marker == Some(m) && m.change == c
      modifies this`m, n`up, n`held, n`strayed, n`log, n`marker, n`image, n`clear
      ensures n.Orderly() && old(n.log) <= n.log
      ensures reply.Done? ==> n.marker == Some(m) && m.change == c && (m.step == Replaced || m.step == Finished)
      ensures old(m.step == Replaced || m.step == Finished) ==>
        reply.Done? && m == old(m) && n.log == old(n.log) && n.image == old(n.image) && n.up == old(n.up)
      ensures ExposedSince(n.validator, n.log, |old(n.log)|) ==> old(Resumes())
      ensures ExposedUnder(n.validator, n.log, |old(n.log)|, old(n.strayed))
      ensures n.calm && old(Resumes() && StopsCore()) ==>
        (ExposedSince(n.validator, n.log, |old(n.log)|) <==> !(old(n.up) !! DependantSet(n.validator)))
      ensures n.calm ==> reply.Done? && (old(m.step == Start || m.step == Withdrawn) ==> m.step == Replaced && Core in n.up)
      ensures n.calm && Gateway in old(n.up) ==> Gateway in n.up
    {
      hide Allowed, ExposedSince, ExposedUnder;
      NothingExposed(n.validator, n.log);
      reply := Done;
      if m.step == Start {
        reply := Withdraw();
        Unexposed(n.validator, old(n.log), n.log, |old(n.log)|);
      }
      if reply.Done? && m.step == Withdrawn {
        ghost var before := n.log;
        reply := Replace();
        if !old(Resumes()) {
          Unexposed(n.validator, before, n.log, |old(n.log)|);
        }
      }
    }

    /** What a run finds undisturbed, whatever step it resumes at. */
    predicate Primed()
      reads this, n
    {
      && Recorded() && (n.validator ==> Gateway in n.up)
      && (m.step == Replaced ==> Core in n.up) && (m.step == Finished ==> Restored())
    }

    /** The steps that earlier runs did not record. */
    method Carry() returns (reply: Reply)
      requires n.Orderly() && n.marker == Some(m) && m.change == c
      modifies this`m, n`up, n`held, n`strayed, n`log, n`marker, n`image, n`clear, n`listenerSeen
      ensures n.Orderly() && old(n.log) <= n.log
      ensures reply.Done? ==> n.marker == Some(m) && m.change == c && m.step == Finished
      ensures old(m.step == Finished) ==>
        n.log == old(n.log) && n.marker == old(n.marker) && n.image == old(n.image)
      ensures ExposedSince(n.validator, n.log, |old(n.log)|) ==> old(Resumes())
      ensures ExposedUnder(n.validator, n.log, |old(n.log)|, old(n.strayed))
      ensures n.calm && old(Resumes() && StopsCore()) ==>
        (ExposedSince(n.validator, n.log, |old(n.log)|) <==> !(old(n.up) !! DependantSet(n.validator)))
      ensures n.calm && old(Primed()) ==> reply.Done? && Restored()
    {
      hide Allowed, ExposedSince, ExposedUnder;
      reply := ReachReplaced();
      if reply.Done? && m.step == Replaced {
        ghost var before := n.log;
        reply := Restore();
        Unexposed(n.validator, before, n.log, |old(n.log)|);
      }
    }

    /** One run of the change. */
    method Execute() returns (reply: Reply)
      requires n.Orderly() && !n.clear && !n.listenerSeen
      modifies this`m, n`up, n`held, n`strayed, n`log, n`marker, n`image, n`clear, n`listenerSeen
      ensures n.Orderly() && old(n.log) <= n.log
      ensures reply.Done? ==> n.marker == Some(Marker(c, Finished, true)) && Restored()
      ensures old(n.marker.Some? && n.marker.value == Marker(c, Finished, true)) ==>
        n.log == old(n.log) && n.marker == old(n.marker) && n.image == old(n.image)
      ensures old(n.marker.Some? && !n.marker.value.applied && n.marker.value.change != c) ==>
        n.log == old(n.log) && n.marker == old(n.marker) && n.image == old(n.image)
      ensures ExposedSince(n.validator, n.log, |old(n.log)|) ==> old(Resumes())
      ensures ExposedUnder(n.validator, n.log, |old(n.log)|, old(n.strayed))
      ensures n.calm && old(Resumes() && StopsCore()) ==>
        (ExposedSince(n.validator, n.log, |old(n.log)|) <==> !(old(n.up) !! DependantSet(n.validator)))
      ensures n.calm && old(Ready()) ==> reply.Done?
    {
      hide Allowed, ExposedSince, ExposedUnder, DependantSet, PlatformSet;
      NothingExposed(n.validator, n.log);
      reply := Enter();
      if reply.Done? {
        reply := Carry();
      }
      if reply.Done? {
        reply := n.Ask();
      }
      if reply.Done? && !Restored() {
        reply := Failed;
      }
    }
  }

  // -------------------------------------------------------- main theorems

  /** Any number of runs, of any changes, each ending in any way: on a validator
    * Core is stopped or recreated only when the run saw it down or at a quiet
    * height, and only while every one of Tenderdash, the DAPI and Drive is down
    * that nobody else started since its withdrawal; Drive is stopped only while
    * Tenderdash is down, and Tenderdash started only after Drive's listener was
    * seen in that run. */
  method AllRuns(n: Node, changes: seq<Change>)
    requires n.Orderly()
    modifies n
    ensures n.Orderly() && old(n.log) <= n.log
    ensures forall i :: 0 <= i < |n.log| ==> Allowed(n.validator, n.log[i])
    ensures forall i :: 0 <= i < |n.log| && Exposed(n.validator, n.log[i]) ==>
      !(n.log[i].strayed !! DependantSet(n.validator))
  {
    for k := 0 to |changes|
      invariant n.Orderly() && old(n.log) <= n.log
    {
      n.Meanwhile();
      var worker := new Worker(n, changes[k]);
      var reply := worker.Execute();
    }
  }

  /** Such a run: it dies after the withdrawal, somebody starts Tenderdash, and
    * the next run, in which nothing fails, stops Core under it. */
  method ResumeUnderTenderdash() returns (n: Node, reply: Reply)
    ensures reply.Done? && n.validator && n.marker.Some? && n.marker.value.applied
    ensures ExposedSince(n.validator, n.log, 0)
  {
    hide Allowed, Exposed, ExposedUnder;
    var c;
    n, c := DiedWithdrawn();
    var second := new Worker(n, c);
    reply := second.Execute();
  }

  method DiedWithdrawn() returns (n: Node, c: Change)
    ensures fresh(n) && n.Orderly() && n.calm && n.validator && !n.clear && !n.listenerSeen
    ensures n.marker == Some(Marker(c, Withdrawn, false)) && n.image == Some(c.before) && c.before == "1" && c.after == "2"
    ensures Tenderdash in n.up && Gateway in n.up
    ensures n.containers == c.preserve && c.preserve.Keys == PlatformSet(true)
  {
    hide Allowed;
    var containers := map[Tenderdash := 1, Dapi := 2, Drive := 3, Gateway := 4];
    n := new Node(true, false, Some("1"), {Core, Tenderdash, Dapi, Drive, Gateway}, containers);
    n.calm := true;
    c := Change("1", "1", "2", containers);
    var first := new Worker(n, c);
    var reply := first.Enter();
    reply := first.Withdraw();
    n.StartedByOthers(Tenderdash);
  }
}
