/** The bounded worker pool that prepares a fleet's hosts. */
module Fleet {

  const ParallelHosts: nat := 16

  /** What an observer of one call sees, in order: a host's work starts, ends,
    * or its result is recorded. */
  datatype Event = Started(host: nat) | Finished(host: nat, worked: bool) | Recorded(host: nat, stored: bool)

  /** The pool after some events. */
  datatype Pool = Pool(next: nat, active: set<nat>, worked: map<nat, bool>, recorded: map<nat, bool>) {

    predicate Broken() {
      exists i :: i in recorded && !recorded[i]
    }

    predicate Clean() {
      forall i :: i in worked ==> worked[i]
    }

    /** Every host worked without error and was recorded. */
    predicate Complete(hosts: nat) {
      next == hosts && forall i :: 0 <= i < hosts ==> i in worked && worked[i] && i in recorded && recorded[i]
    }
  }

  /** Which events may follow: hosts start in order, at most sixteen at a time,
    * each after every earlier result was recorded, and none after a record
    * failed; results are recorded once. */
  ghost predicate Enabled(p: Pool, e: Event, hosts: nat) {
    match e
    case Started(i) =>
      i == p.next < hosts && |p.active| < ParallelHosts && !p.Broken() && p.worked.Keys == p.recorded.Keys
    case Finished(i, _) => i in p.active
    case Recorded(i, _) => i in p.worked && i !in p.recorded && !p.Broken()
  }

  ghost function After(p: Pool, e: Event): Pool {
    match e
    case Started(i) => p.(next := p.next + 1, active := p.active + {i})
    case Finished(i, ok) => p.(active := p.active - {i}, worked := p.worked[i := ok])
    case Recorded(i, ok) => p.(recorded := p.recorded[i := ok])
  }

  const Empty: Pool := Pool(0, {}, map[], map[])

  ghost predicate Legal(trace: seq<Event>, hosts: nat) {
    trace == [] ||
    (Legal(trace[..|trace| - 1], hosts)
     && Enabled(Exec(trace[..|trace| - 1]), trace[|trace| - 1], hosts))
  }

  ghost function Exec(trace: seq<Event>): Pool {
    if trace == [] then Empty else After(Exec(trace[..|trace| - 1]), trace[|trace| - 1])
  }

  lemma Extend(trace: seq<Event>, e: Event, hosts: nat)
    requires Legal(trace, hosts) && Enabled(Exec(trace), e, hosts)
    ensures Legal(trace + [e], hosts) && Exec(trace + [e]) == After(Exec(trace), e)
  {
    assert (trace + [e])[..|trace|] == trace;
  }

  /** What every pool reached by legal events satisfies. */
  ghost predicate Tidy(p: Pool, hosts: nat) {
    && p.next <= hosts && |p.active| <= ParallelHosts
    && (forall i :: 0 <= i < p.next <==> i in p.active || i in p.worked)
    && (forall i :: i in p.active ==> i !in p.worked)
    && p.recorded.Keys <= p.worked.Keys
  }

  lemma TidyStep(p: Pool, e: Event, hosts: nat)
    requires Tidy(p, hosts) && Enabled(p, e, hosts)
    ensures Tidy(After(p, e), hosts)
  {
    match e
    case Started(i) => assert i !in p.active && i !in p.worked;
    case Finished(i, _) =>
    case Recorded(i, _) =>
  }

  lemma {:induction false} LegalIsTidy(trace: seq<Event>, hosts: nat)
    requires Legal(trace, hosts)
    ensures Tidy(Exec(trace), hosts)
  {
    hide Tidy, Enabled, After;
    if trace == [] {
      EmptyIsTidy(hosts);
    } else {
      LegalIsTidy(trace[..|trace| - 1], hosts);
      TidyStep(Exec(trace[..|trace| - 1]), trace[|trace| - 1], hosts);
    }
  }

  lemma EmptyIsTidy(hosts: nat)
    ensures Tidy(Empty, hosts)
  {
  }

  /** How an ended and recorded host shows in the pool. */
  lemma EndStep(p: Pool, i: nat, ok: bool)
    requires i in p.active && i !in p.worked
    ensures After(p, Finished(i, ok)).Clean() <==> p.Clean() && ok
    ensures After(p, Finished(i, ok)).Broken() <==> p.Broken()
    ensures After(p, Finished(i, ok)).worked.Keys == p.worked.Keys + {i}
  {
    var q := After(p, Finished(i, ok));
    if q.Clean() {
      assert q.worked[i] == ok;
      forall j | j in p.worked ensures p.worked[j] {
        assert q.worked[j] == p.worked[j];
      }
    }
  }

  lemma RecordStep(p: Pool, i: nat, ok: bool)
    requires i in p.worked && i !in p.recorded && !p.Broken()
    ensures After(p, Recorded(i, ok)).Broken() <==> !ok
    ensures After(p, Recorded(i, ok)).recorded.Keys == p.recorded.Keys + {i}
  {
    var q := After(p, Recorded(i, ok));
    assert i in q.recorded && q.recorded[i] == ok;
  }

  lemma Outcome(p: Pool, hosts: nat)
    requires Tidy(p, hosts) && p.active == {} && (!p.Broken() ==> p.worked.Keys == p.recorded.Keys)
    ensures p.Complete(hosts) <==> !p.Broken() && p.Clean() && p.next == hosts
  {
    if !p.Broken() && p.Clean() && p.next == hosts {
      forall i | 0 <= i < hosts ensures i in p.worked && i in p.recorded && p.recorded[i] {
        assert i in p.active || i in p.worked;
      }
    }
    if p.Complete(hosts) {
      forall i | i in p.worked ensures p.worked[i] {
        assert 0 <= i < p.next;
      }
      forall i | i in p.recorded ensures p.recorded[i] {
        assert i in p.worked && 0 <= i < p.next;
      }
    }
  }

  /** Runs every host's work, at most sixteen at a time, and records each result
    * as it comes; cancellation only stops further starts. */
  method Run(hosts: nat) returns (ok: bool, trace: seq<Event>)
    ensures Legal(trace, hosts) && Exec(trace).active == {}
    ensures ok <==> Exec(trace).Complete(hosts)
  {
    hide Legal, Exec, Tidy;
    trace := [];
    var next, active: set<nat>, failed, broken, cancelled := 0, {}, false, false, false;
    ghost var p := Empty;
    Begin(hosts);
    while next < hosts && |active| < ParallelHosts
      invariant Legal(trace, hosts) && Exec(trace) == p == Pool(next, active, map[], map[])
    {
      Extend(trace, Started(next), hosts);
      trace, p := trace + [Started(next)], After(p, Started(next));
      active, next := active + {next}, next + 1;
    }
    while active != {}
      invariant Legal(trace, hosts) && Exec(trace) == p && p.next == next && p.active == active
      invariant (broken <==> p.Broken()) && (!failed <==> p.Clean())
      invariant !broken ==> p.worked.Keys == p.recorded.Keys
      decreases hosts - next, |active|
    {
      var i: nat :| i in active;
      var worked: bool, stored: bool := *, *;
      if !cancelled {
        cancelled := *;
      }
      Facts(trace, hosts, i);
      EndStep(p, i, worked);
      Extend(trace, Finished(i, worked), hosts);
      trace, p := trace + [Finished(i, worked)], After(p, Finished(i, worked));
      active, failed := active - {i}, failed || !worked;
      if !broken {
        RecordStep(p, i, stored);
        Extend(trace, Recorded(i, stored), hosts);
        trace, p := trace + [Recorded(i, stored)], After(p, Recorded(i, stored));
        broken := !stored;
        if stored && next < hosts && !cancelled {
          Extend(trace, Started(next), hosts);
          trace, p := trace + [Started(next)], After(p, Started(next));
          active, next := active + {next}, next + 1;
        }
      }
    }
    LegalIsTidy(trace, hosts);
    Outcome(p, hosts);
    ok := !broken && !failed && next == hosts;
  }

  lemma Begin(hosts: nat)
    ensures Legal([], hosts) && Exec([]) == Empty
  {
  }

  lemma Facts(trace: seq<Event>, hosts: nat, i: nat)
    requires Legal(trace, hosts) && i in Exec(trace).active
    ensures |Exec(trace).active| <= ParallelHosts && Exec(trace).next <= hosts
    ensures i !in Exec(trace).worked && i !in Exec(trace).recorded
  {
    LegalIsTidy(trace, hosts);
  }

  lemma {:induction false} PrefixLegal(trace: seq<Event>, k: nat, hosts: nat)
    requires Legal(trace, hosts) && k <= |trace|
    ensures Legal(trace[..k], hosts)
    decreases |trace|
  {
    if k < |trace| {
      PrefixLegal(trace[..|trace| - 1], k, hosts);
      assert trace[..|trace| - 1][..k] == trace[..k];
    } else {
      assert trace[..k] == trace;
    }
  }

  /** At every moment at most sixteen hosts are being worked on. */
  lemma NeverMoreThanSixteen(trace: seq<Event>, k: nat, hosts: nat)
    requires Legal(trace, hosts) && k <= |trace|
    ensures |Exec(trace[..k]).active| <= 16
  {
    PrefixLegal(trace, k, hosts);
    LegalIsTidy(trace[..k], hosts);
  }

  lemma {:induction false} NextGrows(trace: seq<Event>, k: nat, hosts: nat)
    requires Legal(trace, hosts) && k <= |trace|
    ensures Exec(trace[..k]).next <= Exec(trace).next
    ensures Exec(trace[..k]).Broken() ==> Exec(trace).Broken()
    decreases |trace|
  {
    if k < |trace| {
      var front := trace[..|trace| - 1];
      NextGrows(front, k, hosts);
      assert front[..k] == trace[..k];
      LegalIsTidy(front, hosts);
      if Exec(front).Broken() {
        var i :| i in Exec(front).recorded && !Exec(front).recorded[i];
        assert i in Exec(trace).recorded && !Exec(trace).recorded[i];
      }
    } else {
      assert trace[..k] == trace;
    }
  }

  lemma At(trace: seq<Event>, k: nat, hosts: nat)
    requires Legal(trace, hosts) && k < |trace|
    ensures Legal(trace[..k], hosts) && Legal(trace[..k + 1], hosts)
    ensures Enabled(Exec(trace[..k]), trace[k], hosts) && Exec(trace[..k + 1]) == After(Exec(trace[..k]), trace[k])
  {
    PrefixLegal(trace, k, hosts);
    PrefixLegal(trace, k + 1, hosts);
    assert trace[..k + 1][..k] == trace[..k];
  }

  /** Hosts start in order, each at most once. */
  lemma StartsInOrder(trace: seq<Event>, a: nat, b: nat, hosts: nat)
    requires Legal(trace, hosts) && a < b < |trace| && trace[a].Started? && trace[b].Started?
    ensures trace[a].host < trace[b].host < hosts
  {
    At(trace, a, hosts);
    At(trace, b, hosts);
    PrefixLegal(trace, b, hosts);
    NextGrows(trace[..b], a + 1, hosts);
    assert trace[..b][..a + 1] == trace[..a + 1];
  }

  /** After a record failed nothing starts and nothing more is recorded. */
  lemma NothingAfterFailedRecord(trace: seq<Event>, a: nat, b: nat, hosts: nat)
    requires Legal(trace, hosts) && a < b < |trace| && trace[a].Recorded? && !trace[a].stored
    ensures trace[b].Finished?
  {
    At(trace, a, hosts);
    At(trace, b, hosts);
    assert trace[a].host in Exec(trace[..a + 1]).recorded && !Exec(trace[..a + 1]).recorded[trace[a].host];
    NextGrows(trace[..b], a + 1, hosts);
    assert trace[..b][..a + 1] == trace[..a + 1];
  }

  /** A host starts only once every result so far was recorded. */
  lemma StartsFollowRecords(trace: seq<Event>, a: nat, b: nat, hosts: nat)
    requires Legal(trace, hosts) && a < b < |trace| && trace[a].Finished? && trace[b].Started?
    ensures exists c :: a < c < b && trace[c] == Recorded(trace[a].host, true)
  {
    At(trace, b, hosts);
    At(trace, a, hosts);
    PrefixLegal(trace, b, hosts);
    assert trace[..b][..a + 1] == trace[..a + 1];
    WorkedStays(trace[..b], a + 1, trace[a].host, hosts);
    RecordedSince(trace[..b], a, hosts);
  }

  lemma {:induction false} WorkedStays(trace: seq<Event>, k: nat, i: nat, hosts: nat)
    requires Legal(trace, hosts) && k <= |trace| && i in Exec(trace[..k]).worked
    ensures i in Exec(trace).worked
    decreases |trace|
  {
    if k < |trace| {
      var front := trace[..|trace| - 1];
      assert front[..k] == trace[..k];
      WorkedStays(front, k, i, hosts);
    } else {
      assert trace[..k] == trace;
    }
  }

  lemma {:induction false} RecordedSince(trace: seq<Event>, a: nat, hosts: nat)
    requires Legal(trace, hosts) && a < |trace| && trace[a].Finished?
    requires trace[a].host in Exec(trace).recorded && !Exec(trace).Broken()
    ensures exists c :: a < c < |trace| && trace[c] == Recorded(trace[a].host, true)
  {
    var front, last := trace[..|trace| - 1], trace[|trace| - 1];
    if last.Recorded? && last.host == trace[a].host {
      assert last.stored by {
        assert last.host in Exec(trace).recorded;
      }
    } else if a == |trace| - 1 {
      LegalIsTidy(front, hosts);
      assert false;
    } else {
      NextGrows(trace, |front|, hosts);
      RecordedSince(front, a, hosts);
    }
  }
}
