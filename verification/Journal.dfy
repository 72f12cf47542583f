/** The fenced journal: one item per network, changed only by conditional
  * writes, shared by runners that crash, lose replies and retry.
  *
  * The network keeps every request ever sent and may deliver it at any time, any
  * number of times; it keeps every reply and may never deliver it.
  */
module Journal {
  import opened Wrappers
  import opened Claims

  type Owner = nat
  type Payload = string

  datatype Item = Item(plan: string, owner: Option<Owner>, revision: int, data: Payload)

  datatype Request =
    | Create(owner: Owner, plan: string, data: Payload)
    | Claim(owner: Owner, plan: string)
    | Write(owner: Owner, plan: string, next: int, data: Payload)
    | Free(owner: Owner, plan: string)

  datatype Reply = Reply(request: Request, ok: bool, item: Option<Item>)

  // ---------------------------------------------------------------- the table

  /** One conditional request against the stored item: the item afterwards, and
    * whether the condition held. */
  function Serve(item: Option<Item>, q: Request): (r: (Option<Item>, bool))
    ensures !r.1 ==> r.0 == item
    ensures item.Some? ==> r.0.Some? && r.0.value.plan == item.value.plan
    ensures item.Some? && item.value.owner.Some? && r.0.value.owner != item.value.owner
            ==> q == Free(item.value.owner.value, item.value.plan)
  {
    match q
    case Create(o, p, d) =>
      if item.None? then (Some(Item(p, Some(o), 0, d)), true) else (item, false)
    case Claim(o, p) =>
      if item.Some? && item.value.plan == p && item.value.owner.None?
      then (Some(item.value.(owner := Some(o))), true) else (item, false)
    case Write(o, p, n, d) =>
      if item.Some? && item.value.plan == p && item.value.owner == Some(o)
         && (item.value.revision == n - 1 || (item.value.revision == n && item.value.data == d))
      then (Some(item.value.(revision := n, data := d)), true) else (item, false)
    case Free(o, p) =>
      if item.Some? && item.value.plan == p && item.value.owner == Some(o)
      then (Some(item.value.(owner := None)), true) else (item, false)
  }

  /** The table row, updated in place by the four conditional calls. */
  class Table {
    var item: Option<Item>

    constructor ()
      ensures item == None
    {
      item := None;
    }

    method PutIfAbsent(o: Owner, p: string, d: Payload) returns (ok: bool)
      modifies this
      ensures (item, ok) == Serve(old(item), Create(o, p, d))
    {
      ok := item.None?;
      if ok {
        item := Some(Item(p, Some(o), 0, d));
      }
    }

    method SetOwner(o: Owner, p: string) returns (ok: bool)
      modifies this
      ensures (item, ok) == Serve(old(item), Claim(o, p))
    {
      ok := item.Some? && item.value.plan == p && item.value.owner.None?;
      if ok {
        item := Some(item.value.(owner := Some(o)));
      }
    }

    method SetData(o: Owner, p: string, next: int, d: Payload) returns (ok: bool)
      modifies this
      ensures (item, ok) == Serve(old(item), Write(o, p, next, d))
    {
      ok := item.Some? && item.value.plan == p && item.value.owner == Some(o)
      && (item.value.revision == next - 1 || (item.value.revision == next && item.value.data == d));
      if ok {
        item := Some(item.value.(revision := next, data := d));
      }
    }

    method RemoveOwner(o: Owner, p: string) returns (ok: bool)
      modifies this
      ensures (item, ok) == Serve(old(item), Free(o, p))
    {
      ok := item.Some? && item.value.plan == p && item.value.owner == Some(o);
      if ok {
        item := Some(item.value.(owner := None));
      }
    }
  }

  // ------------------------------------------------- runners and the network

  /** A runner identity is drawn once: Acquire first tries to create the item,
    * then to claim it; only a successful Acquire leads to Held. */
  datatype Phase = Creating | Claiming | Held | Gone

  /** base is the revision of the record Acquire returned; attempts are the
    * payloads of the saves made since, the k-th at revision base + k. */
  datatype Runner = Runner(phase: Phase, plan: string, base: int, attempts: seq<Payload>)

  /** One revision of the stored record, as it was first committed. */
  datatype Entry = Entry(owner: Owner, data: Payload)

  datatype World = World(
    item: Option<Item>,
    runners: map<Owner, Runner>,
    sent: set<Request>,
    replies: set<Reply>,
    history: seq<Entry>,   // entry n is revision n
    freed: set<Owner>,     // owners whose release has taken effect
    revived: set<Owner>)   // owners set again by a claim that landed after that

  const Init := World(None, map[], {}, {}, [], {}, {})

  datatype Action =
    | Start(owner: Owner, plan: string, data: Payload)
    | Receive(reply: Reply)
    | Save(owner: Owner, data: Payload, wellFormed: bool)
    | Release(owner: Owner)
    | Stop(owner: Owner)
    | Unlock(owner: Owner)
    | Deliver(request: Request)

  predicate In(w: World, o: Owner, phase: Phase) {
    o in w.runners && w.runners[o].phase == phase
  }

  predicate Enabled(w: World, a: Action) {
    match a
    case Start(o, _, _) => o !in w.runners
    case Receive(r) =>
      r in w.replies && r.request.owner in w.runners
      && (r.request.Create? || r.request.Claim?)
      && In(w, r.request.owner, if r.request.Create? then Creating else Claiming)
    case Save(o, _, _) => In(w, o, Held)
    case Release(o) => In(w, o, Held)
    case Stop(o) => o in w.runners
    case Unlock(o) => In(w, o, Gone)
    case Deliver(q) => q in w.sent
  }

  function Next(w: World, a: Action): World
    requires Enabled(w, a)
  {
    match a
    case Start(o, p, d) =>
      w.(runners := w.runners[o := Runner(Creating, p, 0, [])], sent := w.sent + {Create(o, p, d)})
    case Receive(r) =>
      var o := r.request.owner;
      var n := w.runners[o];
      if r.ok && r.item.Some? then
        w.(runners := w.runners[o := n.(phase := Held, base := r.item.value.revision)])
      else if r.request.Create? then
        w.(runners := w.runners[o := n.(phase := Claiming)], sent := w.sent + {Claim(o, n.plan)})
      else
        w.(runners := w.runners[o := n.(phase := Gone)])
    case Save(o, d, wellFormed) =>
      // The in-memory revision rises even when the record is refused locally
      // and no request is sent.
      var n := w.runners[o];
      var n' := n.(attempts := n.attempts + [d]);
      w.(runners := w.runners[o := n'],
         sent := if wellFormed then w.sent + {Write(o, n.plan, n.base + |n'.attempts|, d)} else w.sent)
    case Release(o) =>
      var n := w.runners[o];
      w.(runners := w.runners[o := n.(phase := Gone)], sent := w.sent + {Free(o, n.plan)})
    case Stop(o) =>
      w.(runners := w.runners[o := w.runners[o].(phase := Gone)])
    case Unlock(o) =>
      w.(sent := w.sent + {Free(o, w.runners[o].plan)})
    case Deliver(q) =>
      var (item', ok) := Serve(w.item, q);
      var advanced := item'.Some? && (w.item.None? || item'.value.revision != w.item.value.revision);
      World(item', w.runners, w.sent, w.replies + {Reply(q, ok, item')},
            if advanced then w.history + [Entry(q.owner, item'.value.data)] else w.history,
            if ok && q.Free? then w.freed + {q.owner} else w.freed,
            if ok && q.Claim? && q.owner in w.freed then w.revived + {q.owner} else w.revived)
  }

  ghost predicate Legal(w: World, run: seq<Action>)
    decreases |run|, 0
  {
    run == [] || (Legal(w, run[..|run| - 1]) && Enabled(Exec(w, run[..|run| - 1]), run[|run| - 1]))
  }

  ghost function Exec(w: World, run: seq<Action>): World
    requires Legal(w, run)
    decreases |run|, 1
  {
    if run == [] then w else Next(Exec(w, run[..|run| - 1]), run[|run| - 1])
  }

  ghost predicate Reachable(w: World) {
    exists run :: Legal(Init, run) && Exec(Init, run) == w
  }

  // ---------------------------------------------------------------- invariant

  /** The saves of one owner in the stored history, in order. Entry 0 is the
    * creation of the item, not a save. */
  function SavesBy(h: seq<Entry>, o: Owner): (s: seq<Payload>)
    ensures |s| <= |h|
  {
    if |h| <= 1 then []
    else
      var e := h[|h| - 1];
      SavesBy(h[..|h| - 1], o) + if e.owner == o then [e.data] else []
  }

  predicate ItemIsLastEntry(w: World) {
    && (w.item.None? <==> w.history == [])
    && (w.item.Some? ==> w.item.value.revision == |w.history| - 1
                         && w.item.value.data == w.history[|w.history| - 1].data)
  }

  /** Every save on the wire is one of its owner's attempts, at its revision. */
  predicate SentByRunners(w: World) {
    forall q :: q in w.sent ==>
      && q.owner in w.runners
      && q.plan == w.runners[q.owner].plan
      && (q.Claim? ==> w.runners[q.owner].phase != Creating)
      && (q.Free? ==> w.runners[q.owner].phase == Gone)
      && (q.Write? ==> IsAttempt(w.runners[q.owner], q.next, q.data))
  }

  predicate IsAttempt(n: Runner, revision: int, d: Payload) {
    n.base < revision <= n.base + |n.attempts| && n.attempts[revision - n.base - 1] == d
  }

  predicate RunnersSound(w: World) {
    forall o :: o in w.runners ==>
      && w.runners[o].base >= 0
      && (w.runners[o].phase == Creating || w.runners[o].phase == Claiming ==> w.runners[o].attempts == [])
      && (w.runners[o].phase == Held ==> o !in w.freed && w.item.Some? && w.item.value.owner == Some(o)
                                         && w.item.value.plan == w.runners[o].plan)
      && (w.runners[o].attempts != [] ==>
            w.item.Some? && w.item.value.plan == w.runners[o].plan
            && (o !in w.freed ==> w.item.value.owner == Some(o)))
  }

  predicate OwnersSound(w: World) {
    && w.revived <= w.freed
    && (w.freed != {} ==> w.item.Some?)
    && (w.item.Some? && w.item.value.owner.Some? ==> w.item.value.owner.value in w.runners)
    && (forall o :: o in w.freed ==>
          o in w.runners && w.runners[o].phase == Gone
          && (w.item.Some? && w.item.value.owner == Some(o) ==> o in w.revived))
  }

  /** A positive reply to an Acquire step still describes the item while its
    * runner has saved nothing; a positive reply to a save names stored data. */
  predicate RepliesSound(w: World) {
    forall r :: r in w.replies && r.ok ==>
      && r.request in w.sent
      && r.request.owner in w.runners
      && (r.request.Create? || r.request.Claim? ==>
            r.item.Some? && r.item.value.plan == r.request.plan
            && (r.request.owner !in w.freed && w.runners[r.request.owner].attempts == [] ==>
                  r.item == w.item && w.item.value.owner == Some(r.request.owner)))
      && (r.request.Write? ==>
            0 <= r.request.next < |w.history| && w.history[r.request.next].data == r.request.data)
  }

  /** Revision by revision, the stored data is what its owner tried to save. */
  predicate HistoryIsAttempts(w: World) {
    forall i :: 1 <= i < |w.history| ==>
      w.history[i].owner in w.runners
      && IsAttempt(w.runners[w.history[i].owner], i, w.history[i].data)
  }

  /** What a claim has committed is the run of revisions right after the one it
    * started from, and equals the same number of its first attempts. */
  predicate CommittedPrefix(w: World, o: Owner)
    requires o in w.runners
  {
    var n := w.runners[o];
    var k := |SavesBy(w.history, o)|;
    && k <= |n.attempts|
    && SavesBy(w.history, o) == n.attempts[..k]
    && (k > 0 ==> n.base + k < |w.history|)
    && (forall i :: 1 <= i < |w.history| ==> (w.history[i].owner == o <==> n.base < i <= n.base + k))
    && ((n.phase == Held || n.attempts != []) && w.item.Some? && w.item.value.owner == Some(o) ==>
          |w.history| - 1 == n.base + k)
  }

  predicate Prefixes(w: World) {
    forall o :: o in w.runners && o !in w.revived ==> CommittedPrefix(w, o)
  }

  predicate Inv(w: World) {
    && ItemIsLastEntry(w)
    && SentByRunners(w)
    && RunnersSound(w)
    && OwnersSound(w)
    && RepliesSound(w)
    && HistoryIsAttempts(w)
    && Prefixes(w)
  }

  lemma SavesByAppend(h: seq<Entry>, e: Entry, o: Owner)
    requires h != []
    ensures SavesBy(h + [e], o) == SavesBy(h, o) + if e.owner == o then [e.data] else []
  {
    assert (h + [e])[..|h + [e]| - 1] == h;
  }

  /** An owner that never attempted a save has none stored. */
  lemma {:induction false} NoAttemptsNoSaves(h: seq<Entry>, o: Owner)
    requires forall i :: 1 <= i < |h| ==> h[i].owner != o
    ensures SavesBy(h, o) == []
  {
    if |h| > 1 {
      NoAttemptsNoSaves(h[..|h| - 1], o);
    }
  }

  lemma StepItem(w: World, a: Action)
    requires ItemIsLastEntry(w) && Enabled(w, a)
    ensures ItemIsLastEntry(Next(w, a))
  {
  }

  lemma StepSent(w: World, a: Action)
    requires SentByRunners(w) && RunnersSound(w) && RepliesSound(w) && Enabled(w, a)
    ensures SentByRunners(Next(w, a))
  {
    if !a.Deliver? {
      RunnerStepKeepsSent(w, a);
    }
  }

  lemma RunnerStepKeepsSent(w: World, a: Action)
    requires SentByRunners(w) && RunnersSound(w) && RepliesSound(w) && Enabled(w, a) && !a.Deliver?
    ensures SentByRunners(Next(w, a))
  {
    if !a.Receive? {
      OwnStepKeepsSent(w, a);
    }
  }

  lemma OwnStepKeepsSent(w: World, a: Action)
    requires SentByRunners(w) && RunnersSound(w) && Enabled(w, a) && !a.Deliver? && !a.Receive?
    ensures SentByRunners(Next(w, a))
  {
  }

  lemma StepRunners(w: World, a: Action)
    requires ItemIsLastEntry(w) && SentByRunners(w) && RunnersSound(w) && OwnersSound(w) && RepliesSound(w)
    requires Enabled(w, a)
    ensures RunnersSound(Next(w, a))
  {
    if a.Deliver? {
      DeliveryKeepsRunners(w, a);
    } else {
      RunnerStepKeepsRunners(w, a);
    }
  }

  lemma DeliveryKeepsRunners(w: World, a: Action)
    requires ItemIsLastEntry(w) && SentByRunners(w) && RunnersSound(w) && OwnersSound(w)
    requires Enabled(w, a) && a.Deliver?
    ensures RunnersSound(Next(w, a))
  {
  }

  lemma RunnerStepKeepsRunners(w: World, a: Action)
    requires ItemIsLastEntry(w) && SentByRunners(w) && RunnersSound(w) && OwnersSound(w) && RepliesSound(w)
    requires Enabled(w, a) && !a.Deliver?
    ensures RunnersSound(Next(w, a))
  {
    if !a.Receive? {
      OwnStepKeepsRunners(w, a);
    }
  }

  lemma OwnStepKeepsRunners(w: World, a: Action)
    requires RunnersSound(w) && OwnersSound(w) && Enabled(w, a) && !a.Deliver? && !a.Receive?
    ensures RunnersSound(Next(w, a))
  {
  }

  lemma StepOwners(w: World, a: Action)
    requires SentByRunners(w) && RunnersSound(w) && OwnersSound(w) && RepliesSound(w) && Enabled(w, a)
    ensures OwnersSound(Next(w, a))
  {
    if a.Deliver? {
      DeliveryKeepsOwners(w, a);
    } else {
      RunnerStepKeepsOwners(w, a);
    }
  }

  lemma DeliveryKeepsOwners(w: World, a: Action)
    requires SentByRunners(w) && OwnersSound(w) && Enabled(w, a) && a.Deliver?
    ensures OwnersSound(Next(w, a))
  {
  }

  lemma RunnerStepKeepsOwners(w: World, a: Action)
    requires OwnersSound(w) && Enabled(w, a) && !a.Deliver?
    ensures OwnersSound(Next(w, a))
  {
  }

  lemma StepReplies(w: World, a: Action)
    requires ItemIsLastEntry(w) && SentByRunners(w) && RunnersSound(w) && OwnersSound(w) && RepliesSound(w)
    requires Enabled(w, a)
    ensures RepliesSound(Next(w, a))
  {
    if a.Deliver? {
      DeliveryKeepsReplies(w, a);
    } else {
      RunnerStepKeepsReplies(w, a);
    }
  }

  lemma DeliveryKeepsReplies(w: World, a: Action)
    requires ItemIsLastEntry(w) && SentByRunners(w) && RunnersSound(w) && OwnersSound(w) && RepliesSound(w)
    requires Enabled(w, a) && a.Deliver?
    ensures RepliesSound(Next(w, a))
  {
  }

  lemma RunnerStepKeepsReplies(w: World, a: Action)
    requires OwnersSound(w) && RepliesSound(w) && Enabled(w, a) && !a.Deliver?
    ensures RepliesSound(Next(w, a))
  {
  }

  /** The stored history grows by one entry at most, and only by a save of the
    * stored owner at the next revision. */
  lemma GrowthIsNextAttempt(w: World, a: Action)
    requires Inv(w) && Enabled(w, a)
    requires w.history != [] && Next(w, a).history != w.history
    ensures a.Deliver? && a.request.Write? && a.request.next == |w.history|
    ensures w.item.Some? && w.item.value.owner == Some(a.request.owner)
    ensures Next(w, a).history == w.history + [Entry(a.request.owner, a.request.data)]
    ensures Next(w, a).runners == w.runners && a.request.owner in w.runners
    ensures IsAttempt(w.runners[a.request.owner], |w.history|, a.request.data)
  {
  }

  lemma AttemptsKept(w: World, a: Action, o: Owner)
    requires RunnersSound(w) && Enabled(w, a) && o in w.runners
    ensures o in Next(w, a).runners
    ensures forall i, d :: IsAttempt(w.runners[o], i, d) ==> IsAttempt(Next(w, a).runners[o], i, d)
  {
  }

  lemma EntryKept(w: World, a: Action, i: nat)
    requires RunnersSound(w) && HistoryIsAttempts(w) && Enabled(w, a)
    requires 1 <= i < |w.history|
    ensures i < |Next(w, a).history| && Next(w, a).history[i] == w.history[i]
    ensures w.history[i].owner in Next(w, a).runners
    ensures IsAttempt(Next(w, a).runners[w.history[i].owner], i, w.history[i].data)
  {
    AttemptsKept(w, a, w.history[i].owner);
  }

  lemma StepHistory(w: World, a: Action)
    requires Inv(w) && Enabled(w, a)
    ensures HistoryIsAttempts(Next(w, a))
  {
    var w' := Next(w, a);
    forall i | 1 <= i < |w'.history|
      ensures w'.history[i].owner in w'.runners
      ensures IsAttempt(w'.runners[w'.history[i].owner], i, w'.history[i].data)
    {
      if i < |w.history| {
        EntryKept(w, a, i);
      } else {
        GrowthIsNextAttempt(w, a);
      }
    }
  }

  /** A step that stores nothing new keeps an owner's committed prefix. */
  lemma PrefixKept(w: World, a: Action, o: Owner)
    requires RunnersSound(w) && OwnersSound(w) && RepliesSound(w) && ItemIsLastEntry(w) && Enabled(w, a)
    requires o in w.runners && o !in w.revived && CommittedPrefix(w, o)
    requires w.history != [] && Next(w, a).history == w.history
    requires o !in Next(w, a).revived
    ensures CommittedPrefix(Next(w, a), o)
  {
  }

  /** A stored save extends its owner's committed prefix by one attempt. */
  lemma PrefixGrows(w: World, w': World, saver: Owner, d: Payload, o: Owner)
    requires o in w.runners && saver in w.runners && CommittedPrefix(w, o)
    requires w.item.Some? && w.item.value.owner == Some(saver) && w.history != []
    requires IsAttempt(w.runners[saver], |w.history|, d)
    requires w'.runners == w.runners && w'.history == w.history + [Entry(saver, d)]
    requires w'.item.Some? && w'.item.value.owner == Some(saver)
    ensures CommittedPrefix(w', o)
  {
    SavesByAppend(w.history, Entry(saver, d), o);
  }

  /** A runner that just started has stored nothing. */
  lemma PrefixStarts(w: World, a: Action)
    requires HistoryIsAttempts(w) && OwnersSound(w) && Enabled(w, a) && a.Start?
    ensures CommittedPrefix(Next(w, a), a.owner)
  {
    NoAttemptsNoSaves(w.history, a.owner);
  }

  /** Before the item exists no runner has anything to commit. */
  lemma PrefixBeforeItem(w: World, a: Action, o: Owner)
    requires RunnersSound(w) && RepliesSound(w) && SentByRunners(w) && ItemIsLastEntry(w) && Enabled(w, a)
    requires w.history == [] && o in w.runners && CommittedPrefix(w, o)
    ensures CommittedPrefix(Next(w, a), o)
  {
  }

  lemma StepPrefix(w: World, a: Action, o: Owner)
    requires Inv(w) && Enabled(w, a)
    requires o in Next(w, a).runners && o !in Next(w, a).revived
    ensures CommittedPrefix(Next(w, a), o)
  {
    if o !in w.runners {
      PrefixStarts(w, a);
    } else if w.history == [] {
      PrefixBeforeItem(w, a, o);
    } else if Next(w, a).history == w.history {
      PrefixKept(w, a, o);
    } else {
      GrowthIsNextAttempt(w, a);
      PrefixGrows(w, Next(w, a), a.request.owner, a.request.data, o);
    }
  }

  lemma StepInv(w: World, a: Action)
    requires Inv(w) && Enabled(w, a)
    ensures Inv(Next(w, a))
  {
    StepItem(w, a);
    StepSent(w, a);
    StepRunners(w, a);
    StepOwners(w, a);
    StepReplies(w, a);
    StepHistory(w, a);
    forall o | o in Next(w, a).runners && o !in Next(w, a).revived
      ensures CommittedPrefix(Next(w, a), o)
    {
      StepPrefix(w, a, o);
    }
  }

  /** The invariant holds after every run, whatever the network does. */
  lemma {:induction false} RunInv(run: seq<Action>)
    requires Legal(Init, run)
    ensures Inv(Exec(Init, run))
    decreases |run|
  {
    if run != [] {
      RunInv(run[..|run| - 1]);
      StepInv(Exec(Init, run[..|run| - 1]), run[|run| - 1]);
    }
  }

  // ------------------------------------------------------------ main theorems

  lemma ReachableInv(w: World)
    requires Reachable(w)
    ensures Inv(w)
  {
    var run :| Legal(Init, run) && Exec(Init, run) == w;
    RunInv(run);
  }

  /** However requests and replies are lost, delayed or repeated, at most one
    * runner holds the claim, and the item names it. */
  lemma ClaimIsExclusive(w: World, a: Owner, b: Owner)
    requires Reachable(w)
    requires In(w, a, Held) && In(w, b, Held)
    ensures a == b
    ensures w.item.Some? && w.item.value.owner == Some(a)
  {
    ReachableInv(w);
  }

  /** A stored owner is only ever removed by a release that names it, sent after
    * that runner stopped; nothing replaces it. */
  lemma OwnerLeavesOnlyByItsRelease(w: World, a: Action, o: Owner)
    requires Reachable(w) && Enabled(w, a)
    requires w.item.Some? && w.item.value.owner == Some(o)
    requires Next(w, a).item.value.owner != Some(o)
    ensures a.Deliver? && a.request.Free? && a.request.owner == o
    ensures In(w, o, Gone)
    ensures Next(w, a).item.value.owner == None
  {
    ReachableInv(w);
  }

  /** Over all claims the stored records form one sequence that only grows at
    * its end: no delayed request of any owner rewrites or removes a revision. */
  lemma {:induction false} HistoryAppendOnly(run: seq<Action>, more: seq<Action>)
    requires Legal(Init, run + more) && Legal(Init, run)
    ensures Exec(Init, run).history <= Exec(Init, run + more).history
    ensures |Exec(Init, run + more).history| <= |Exec(Init, run).history| + |more|
    decreases |more|
  {
    if more == [] {
      assert run + more == run;
    } else {
      var most := more[..|more| - 1];
      assert (run + more)[..|run + more| - 1] == run + most;
      HistoryAppendOnly(run, most);
    }
  }

  /** The stored item always carries the last entry of that sequence, at a
    * revision equal to its position, and every entry is exactly what its owner
    * attempted to save at that revision. */
  lemma StoredRecordIsLastAttempt(w: World)
    requires Reachable(w) && w.item.Some?
    ensures w.history != []
    ensures w.item.value.revision == |w.history| - 1
    ensures w.item.value.data == w.history[|w.history| - 1].data
    ensures forall i :: 1 <= i < |w.history| ==>
      w.history[i].owner in w.runners && IsAttempt(w.runners[w.history[i].owner], i, w.history[i].data)
  {
    ReachableInv(w);
  }

  /** Unless a stale claim request revived a released owner, what a runner has
    * committed is exactly a prefix, in order, of the saves it attempted, at the
    * revisions right after the one it started from. */
  lemma CommittedSavesArePrefix(w: World, o: Owner)
    requires Reachable(w) && o in w.runners && o !in w.revived
    ensures SavesBy(w.history, o) <= w.runners[o].attempts
    ensures CommittedPrefix(w, o)
  {
    ReachableInv(w);
  }

  /** Hence an attempt that never takes effect blocks every later one. */
  lemma MissingSaveBlocksLater(w: World, o: Owner, revision: int)
    requires Reachable(w) && o in w.runners && o !in w.revived
    requires 0 <= w.runners[o].base < revision < |w.history| && w.history[revision].owner == o
    ensures forall i :: w.runners[o].base < i <= revision ==>
      w.history[i].owner == o && IsAttempt(w.runners[o], i, w.history[i].data)
  {
    ReachableInv(w);
    assert CommittedPrefix(w, o);
  }

  /** A save that returned without error is stored at its revision for good. */
  lemma AnsweredSaveIsStored(w: World, r: Reply)
    requires Reachable(w) && r in w.replies && r.ok && r.request.Write?
    ensures 0 <= r.request.next < |w.history|
    ensures w.history[r.request.next].data == r.request.data
  {
    ReachableInv(w);
  }

  // --------------------------------------- what the holder of the claim relies on

  /** The journal as its present owner may see it. */
  function View(w: World): Cell<Payload>
    requires w.history != []
  {
    var stored := w.history[|w.history| - 1].data;
    if w.item.Some? && w.item.value.owner.Some? && w.item.value.owner.value in w.runners then
      var o := w.item.value.owner.value;
      var k := |SavesBy(w.history, o)|;
      var attempts := w.runners[o].attempts;
      Cell(stored, if k <= |attempts| then attempts[k..] else [])
    else
      Cell(stored, [])
  }

  predicate OwnerFresh(w: World) {
    w.item.Some? && w.item.value.owner.Some? ==> w.item.value.owner.value !in w.revived
  }

  /** Every step of the protocol is, to the owner, one of: nothing, a save
    * attempted, the oldest outstanding save taking effect, the claim given up. */
  lemma StepRefinesCell(w: World, a: Action)
    requires Inv(w) && Enabled(w, a) && w.history != []
    requires OwnerFresh(w) && OwnerFresh(Next(w, a))
    ensures Next(w, a).history != []
    ensures
      || View(Next(w, a)) == View(w)
      || (a.Save? && View(Next(w, a)) == View(w).Attempted(a.data))
      || (View(w).unlanded != [] && View(Next(w, a)) == View(w).Landed(1))
      || (a.Deliver? && a.request.Free? && View(Next(w, a)) == View(w).Dropped())
  {
    if Next(w, a).history != w.history {
      GrowthLandsOldest(w, a);
    } else {
      QuietStepRefinesCell(w, a);
    }
  }

  lemma GrowthLandsOldest(w: World, a: Action)
    requires Inv(w) && Enabled(w, a) && w.history != [] && OwnerFresh(w)
    requires Next(w, a).history != w.history
    ensures View(w).unlanded != [] && View(Next(w, a)) == View(w).Landed(1)
  {
    GrowthIsNextAttempt(w, a);
    SavesByAppend(w.history, Entry(a.request.owner, a.request.data), a.request.owner);
    assert CommittedPrefix(w, a.request.owner);
  }

  lemma QuietStepRefinesCell(w: World, a: Action)
    requires Inv(w) && Enabled(w, a) && w.history != []
    requires OwnerFresh(w) && OwnerFresh(Next(w, a))
    requires Next(w, a).history == w.history
    ensures
      || View(Next(w, a)) == View(w)
      || (a.Save? && View(Next(w, a)) == View(w).Attempted(a.data))
      || (a.Deliver? && a.request.Free? && View(Next(w, a)) == View(w).Dropped())
  {
    if a.Deliver? {
      QuietDelivery(w, a);
    } else {
      RunnerStep(w, a);
    }
  }

  lemma RunnerStep(w: World, a: Action)
    requires RunnersSound(w) && OwnersSound(w) && Prefixes(w) && OwnerFresh(w)
    requires Enabled(w, a) && !a.Deliver? && w.history != []
    ensures View(Next(w, a)) == if a.Save? then View(w).Attempted(a.data) else View(w)
  {
    if a.Save? {
      SaveStep(w, a);
    } else {
      QuietStep(w, a);
      ViewDepends(w, Next(w, a));
    }
  }

  /** The view is a matter of the item, the history and the owner's attempts. */
  lemma ViewDepends(w: World, w': World)
    requires w.history != [] && w'.history == w.history && w'.item == w.item
    requires w.item.Some? && w.item.value.owner.Some? ==>
      var o := w.item.value.owner.value;
      o in w.runners && o in w'.runners && w'.runners[o].attempts == w.runners[o].attempts
    ensures View(w') == View(w)
  {
  }

  lemma QuietStep(w: World, a: Action)
    requires OwnersSound(w) && Enabled(w, a) && !a.Deliver? && !a.Save?
    ensures Next(w, a).item == w.item && Next(w, a).history == w.history
    ensures forall o :: o in w.runners ==> o in Next(w, a).runners && Next(w, a).runners[o].attempts == w.runners[o].attempts
  {
  }

  lemma SaveStep(w: World, a: Action)
    requires RunnersSound(w) && Prefixes(w) && OwnerFresh(w) && Enabled(w, a) && a.Save? && w.history != []
    ensures View(Next(w, a)) == View(w).Attempted(a.data)
  {
    hide SavesBy;
    assert CommittedPrefix(w, a.owner);
  }

  lemma QuietDelivery(w: World, a: Action)
    requires ItemIsLastEntry(w) && RunnersSound(w) && OwnersSound(w) && SentByRunners(w)
    requires Enabled(w, a) && a.Deliver? && w.history != [] && Next(w, a).history == w.history
    requires OwnerFresh(Next(w, a))
    ensures
      || View(Next(w, a)) == View(w)
      || (a.request.Free? && View(Next(w, a)) == View(w).Dropped())
  {
    if a.request.Claim? && Serve(w.item, a.request).1 {
      assert w.runners[a.request.owner].attempts == [];
    }
  }

  /** While its runner holds the claim, an answered latest save is the stored
    * record and nothing is outstanding: the contract of Claims.Store.Save. */
  lemma AnsweredSaveSettles(w: World, r: Reply)
    requires Inv(w) && r in w.replies && r.ok && r.request.Write?
    requires In(w, r.request.owner, Held)
    requires r.request.next == w.runners[r.request.owner].base + |w.runners[r.request.owner].attempts|
    ensures w.history != [] && View(w) == Cell(r.request.data, [])
  {
    var o := r.request.owner;
    assert CommittedPrefix(w, o);
  }

  /** A successful Acquire returns the stored record with nothing outstanding:
    * the contract of Claims.Store.Acquire. */
  lemma AcquireReturnsStored(w: World, r: Reply)
    requires Inv(w) && Enabled(w, Receive(r)) && r.ok
    ensures In(Next(w, Receive(r)), r.request.owner, Held)
    ensures w.history != [] && r.item.Some?
    ensures View(Next(w, Receive(r))) == Cell(r.item.value.data, [])
  {
    var o := r.request.owner;
    assert r.item == w.item && w.item.value.owner == Some(o) && w.runners[o].attempts == [];
    assert SavesBy(w.history, o) == [] by {
      assert CommittedPrefix(w, o);
    }
    ViewWithoutSaves(w, o);
    ViewWithoutSaves(Next(w, Receive(r)), o);
  }

  lemma ViewWithoutSaves(w: World, o: Owner)
    requires w.history != [] && w.item.Some? && w.item.value.owner == Some(o) && o in w.runners
    requires w.runners[o].attempts == []
    ensures View(w) == Cell(w.history[|w.history| - 1].data, [])
  {
  }

  // ------------------------------------- the one way a stale save can come in

  /** A committed save keeps its owner's prefix exactly when no other owner has
    * committed since that owner's last save. */
  lemma CommitKeepsPrefixIff(w: World, a: Action, o: Owner)
    requires Reachable(w) && Enabled(w, a) && o in w.runners && CommittedPrefix(w, o)
    requires w.history != [] && Next(w, a).history != w.history && a.request.owner == o
    ensures a.request.Write?
    ensures CommittedPrefix(Next(w, a), o)
            <==> a.request.next == w.runners[o].base + |SavesBy(w.history, o)| + 1
  {
    ReachableInv(w);
    GrowthIsNextAttempt(w, a);
    GrowthKeepsPrefixIff(w, Next(w, a), a.request.data, o);
  }

  lemma GrowthKeepsPrefixIff(w: World, w': World, d: Payload, o: Owner)
    requires o in w.runners && CommittedPrefix(w, o) && w.history != []
    requires w.item.Some? && w.item.value.owner == Some(o)
    requires IsAttempt(w.runners[o], |w.history|, d)
    requires w'.runners == w.runners && w'.history == w.history + [Entry(o, d)]
    requires w'.item.Some? && w'.item.value.owner == Some(o)
    ensures CommittedPrefix(w', o) <==> |w.history| == w.runners[o].base + |SavesBy(w.history, o)| + 1
  {
    SavesByAppend(w.history, Entry(o, d), o);
    assert w'.history[|w.history|].owner == o;
  }

  lemma Extend(w: World, a: Action) returns (w': World)
    requires Reachable(w) && Enabled(w, a)
    ensures w' == Next(w, a) && Reachable(w')
  {
    w' := Next(w, a);
    var run :| Legal(Init, run) && Exec(Init, run) == w;
    assert (run + [a])[..|run + [a]| - 1] == run;
    assert Legal(Init, run + [a]) && Exec(Init, run + [a]) == w';
  }

  lemma HolderOwns(w: World, o: Owner)
    requires Reachable(w) && In(w, o, Held)
    ensures w.item.Some? && w.item.value.owner == Some(o) && w.item.value.plan == w.runners[o].plan && o !in w.freed
  {
    ReachableInv(w);
  }

  lemma NewcomerIsNew(w: World, o: Owner)
    requires Reachable(w) && o !in w.runners
    ensures o !in w.freed
  {
    ReachableInv(w);
  }

  /** A holder releases, and its release takes effect. */
  lemma Leave(w: World, o: Owner) returns (w': World)
    requires Reachable(w) && In(w, o, Held)
    ensures w.item.Some?
    ensures Reachable(w') && w'.item == Some(w.item.value.(owner := None))
    ensures w'.runners == w.runners[o := w.runners[o].(phase := Gone)]
    ensures w.sent <= w'.sent && w'.history == w.history
    ensures w'.freed == w.freed + {o} && w'.revived == w.revived
  {
    hide Reachable, Inv;
    HolderOwns(w, o);
    w' := Extend(w, Release(o));
    w' := Extend(w', Deliver(Free(o, w.runners[o].plan)));
  }

  /** The whole of one successful Acquire on an existing, unclaimed item. */
  lemma AcquireExisting(w: World, o: Owner, p: string, d: Payload) returns (w': World)
    requires Reachable(w) && o !in w.runners
    requires w.item.Some? && w.item.value.plan == p && w.item.value.owner == None
    ensures Reachable(w') && w'.item == Some(w.item.value.(owner := Some(o)))
    ensures w'.runners == w.runners[o := Runner(Held, p, w.item.value.revision, [])]
    ensures w'.sent == w.sent + {Create(o, p, d), Claim(o, p)}
    ensures w'.history == w.history && w'.freed == w.freed
    ensures o !in w.freed && w'.revived == w.revived
  {
    hide Reachable, Inv;
    w' := CreateRefused(w, o, p, d);
    NewcomerIsNew(w, o);
    w' := Extend(w', Deliver(Claim(o, p)));
    w' := Extend(w', Receive(Reply(Claim(o, p), true, w'.item)));
  }

  /** The first half of Acquire when the item already exists. */
  lemma CreateRefused(w: World, o: Owner, p: string, d: Payload) returns (w': World)
    requires Reachable(w) && o !in w.runners && w.item.Some?
    ensures Reachable(w') && w'.item == w.item
    ensures w'.runners == w.runners[o := Runner(Claiming, p, 0, [])]
    ensures w'.sent == w.sent + {Create(o, p, d), Claim(o, p)}
    ensures w'.history == w.history && w'.freed == w.freed && w'.revived == w.revived
  {
    hide Reachable, Inv;
    w' := Extend(w, Start(o, p, d));
    w' := Extend(w', Deliver(Create(o, p, d)));
    w' := Extend(w', Receive(Reply(Create(o, p, d), false, w.item)));
  }

  /** Runner 0 creates the item and releases. */
  lemma ItemCreated() returns (w: World)
    ensures Reachable(w) && w.item == Some(Item("p", None, 0, "d")) && w.history == [Entry(0, "d")]
    ensures w.runners.Keys == {0} && w.freed == {0} && w.revived == {}
  {
    assert Legal(Init, []) && Exec(Init, []) == Init;
    w := Extend(Init, Start(0, "p", "d"));
    w := Extend(w, Deliver(Create(0, "p", "d")));
    w := Extend(w, Receive(Reply(Create(0, "p", "d"), true, w.item)));
    w := Leave(w, 0);
  }

  /** After it, runner 1 claims the item, attempts two saves that stay on the
    * wire, and releases. */
  lemma FirstRunnersLeave() returns (w: World)
    ensures Reachable(w) && w.item == Some(Item("p", None, 0, "d")) && w.history == [Entry(0, "d")]
    ensures w.runners.Keys == {0, 1} && w.runners[1] == Runner(Gone, "p", 0, ["a1", "a2"])
    ensures Claim(1, "p") in w.sent && Write(1, "p", 2, "a2") in w.sent
    ensures 1 in w.freed && w.revived == {}
  {
    hide Reachable, Inv;
    w := ItemCreated();
    w := AcquireExisting(w, 1, "p", "d");
    w := Extend(w, Save(1, "a1", true));
    w := Extend(w, Save(1, "a2", true));
    w := Leave(w, 1);
  }

  /** A runner claims the item, commits one save and releases. */
  lemma OneSave(w: World, o: Owner, d: Payload) returns (w': World)
    requires Reachable(w) && o !in w.runners && w.history != []
    requires w.item.Some? && w.item.value.owner == None
    ensures Reachable(w') && w'.item == Some(Item(w.item.value.plan, None, w.item.value.revision + 1, d))
    ensures w'.history == w.history + [Entry(o, d)]
    ensures w.runners.Keys <= w'.runners.Keys && (forall x :: x in w.runners ==> w'.runners[x] == w.runners[x])
    ensures w.sent <= w'.sent && w.freed <= w'.freed && w'.revived == w.revived
  {
    hide Reachable, Inv;
    var p := w.item.value.plan;
    w' := AcquireExisting(w, o, p, d);
    w' := Extend(w', Save(o, d, true));
    w' := Extend(w', Deliver(Write(o, p, w.item.value.revision + 1, d)));
    w' := Leave(w', o);
  }

  /** A run that breaks the order: after runner 2 has claimed, committed and
    * released, runner 1's claim request is delivered once more and its second
    * save after it, although its first never took effect. */
  lemma RevivedClaimStoresStaleSave() returns (w: World)
    ensures Reachable(w) && 1 in w.runners && 1 in w.revived
    ensures w.runners[1].attempts == ["a1", "a2"] && SavesBy(w.history, 1) == ["a2"]
    ensures w.history == [Entry(0, "d"), Entry(2, "b1"), Entry(1, "a2")]
    ensures !CommittedPrefix(w, 1)
  {
    hide Reachable, Inv;
    w := FirstRunnersLeave();
    w := OneSave(w, 2, "b1");
    w := Extend(w, Deliver(Claim(1, "p")));
    w := Extend(w, Deliver(Write(1, "p", 2, "a2")));
    var h := w.history;
    assert h == [Entry(0, "d"), Entry(2, "b1"), Entry(1, "a2")];
    assert h[..2] == [Entry(0, "d"), Entry(2, "b1")];
    assert SavesBy(h[..2], 1) == [];
    assert SavesBy(h, 1)[0] != w.runners[1].attempts[..1][0];
  }
}
