/** Whether a validator may be withdrawn: in every observed quorum the healthy
  * owned members other than it must hold more than two thirds of the power. */
module Quorum {
  import opened Text

  datatype NodeRole = ValidatorNode | MasternodeNode | OtherNode

  datatype Target = Target(name: string, instance: string, role: NodeRole, containers: set<string>)

  datatype Chain = Chain(
    coreSynced: bool, chainLockHeight: int, masternodeReady: bool, catchingUp: bool, dapiHealthy: bool,
    platformHeight: int, dapiHeight: int, proTxHash: string, votingPower: map<string, int>)

  /** What one node answered: which of its containers run, and its chain. */
  datatype Observation = Observation(failed: bool, problems: seq<string>, instance: string, components: map<string, bool>, chain: Chain)

  predicate Healthy(o: Observation, t: Target) {
    && !o.failed && o.problems == [] && o.instance == t.instance
    && |o.components| == |t.containers|
    && (forall c :: c in t.containers ==> c in o.components && o.components[c])
    && ("core" in t.containers ==> o.chain.coreSynced && o.chain.chainLockHeight > 0)
    && (t.role == MasternodeNode ==> o.chain.masternodeReady)
    && (t.role == ValidatorNode ==>
          o.chain.masternodeReady && !o.chain.catchingUp && o.chain.dapiHealthy
          && o.chain.platformHeight >= 1 && o.chain.dapiHeight >= 1)
  }

  type Nodes = map<string, Observation>

  const Silent: Observation :=
    Observation(false, [], "", map[], Chain(false, 0, false, false, false, 0, 0, "", map[]))

  function Seen(nodes: Nodes, t: Target): Observation {
    if t.name in nodes then nodes[t.name] else Silent
  }

  // ----------------------------------------------------- 64-bit arithmetic

  const MaxPower: int := 1000000000

  /** Two's complement wrap-around of a signed 64-bit result. */
  function Wrap64(x: int): int {
    var low := x % 0x1_0000_0000_0000_0000;
    if low < 0x8000_0000_0000_0000 then low else low - 0x1_0000_0000_0000_0000
  }

  /** Division that truncates toward zero. */
  function Quotient(x: int, y: int): int
    requires y > 0
  {
    if x >= 0 then x / y else -((-x) / y)
  }

  /** The refusal test as it is computed. */
  predicate Refused(total: int, remaining: int) {
    remaining <= Quotient(Wrap64(2 * total), 3)
  }

  /** More than two thirds. */
  predicate Supermajority(total: int, remaining: int) {
    3 * remaining > 2 * total
  }

  lemma RefusalIsExact(total: int, remaining: int)
    requires 0 <= total && 2 * total < 0x8000_0000_0000_0000
    ensures Refused(total, remaining) <==> !Supermajority(total, remaining)
  {
    var q, m := 2 * total / 3, 2 * total % 3;
    assert Wrap64(2 * total) == 2 * total;
    assert 2 * total == 3 * q + m && 0 <= m < 3;
  }

  /** Exactly when the test is right about two sums that fit in 64 bits: a
    * doubled total that overflows makes it accept whatever remains. */
  lemma RefusalIsExactIff(total: int, remaining: int)
    requires 0 <= remaining <= total < 0x8000_0000_0000_0000
    ensures (Refused(total, remaining) <==> !Supermajority(total, remaining))
      <==> (2 * total < 0x8000_0000_0000_0000 || Supermajority(total, remaining)
            || (remaining == 0 && total == 0x7fff_ffff_ffff_ffff))
  {
    if 2 * total < 0x8000_0000_0000_0000 {
      RefusalIsExact(total, remaining);
    } else {
      assert Wrap64(2 * total) == 2 * total - 0x1_0000_0000_0000_0000;
    }
  }

  /** The largest quorum whose power cannot overflow the doubled sum: one member
    * more, all at the maximum, is accepted although none of it is healthy. */
  const MaxMembers: int := 4611686018

  lemma OneMemberMoreOverflows()
    ensures 2 * (MaxMembers * MaxPower) < 0x8000_0000_0000_0000
    ensures (MaxMembers + 1) * MaxPower < 0x8000_0000_0000_0000
    ensures !Refused((MaxMembers + 1) * MaxPower, 0) && !Supermajority((MaxMembers + 1) * MaxPower, 0)
  {
  }

  // ------------------------------------------------------------ the powers

  /** The power of some members. */
  ghost function Power(powers: map<string, int>, ids: set<string>): int
    requires ids <= powers.Keys
  {
    if ids == {} then 0
    else
      var id :| id in ids;
      powers[id] + Power(powers, ids - {id})
  }

  /** The sum does not depend on the order. */
  lemma {:induction false} PowerStep(powers: map<string, int>, ids: set<string>, id: string)
    requires ids <= powers.Keys && id in ids
    ensures Power(powers, ids) == powers[id] + Power(powers, ids - {id})
    decreases |ids|
  {
    var first :| first in ids && Power(powers, ids) == powers[first] + Power(powers, ids - {first});
    if first != id {
      PowerStep(powers, ids - {first}, id);
      PowerStep(powers, ids - {id}, first);
      assert ids - {first} - {id} == ids - {id} - {first};
    }
  }

  lemma {:induction false} PowerBounds(powers: map<string, int>, ids: set<string>)
    requires ids <= powers.Keys && forall id :: id in ids ==> 0 < powers[id] <= MaxPower
    ensures 0 <= Power(powers, ids) <= MaxPower * |ids|
    decreases |ids|
  {
    if ids != {} {
      var id :| id in ids;
      PowerStep(powers, ids, id);
      PowerBounds(powers, ids - {id});
    }
  }

  predicate ValidPowers(powers: map<string, int>) {
    powers != map[] && forall id :: id in powers ==> Hex64(id) && 0 < powers[id] <= MaxPower
  }

  /** A reported quorum keeps more than two thirds without the unhealthy. */
  ghost predicate Kept(powers: map<string, int>, healthy: set<string>) {
    ValidPowers(powers) && Supermajority(Power(powers, powers.Keys), Power(powers, powers.Keys * healthy))
  }

  predicate Counts(t: Target, nodes: Nodes, target: Target) {
    t.role == ValidatorNode && t.name != target.name && Healthy(Seen(nodes, t), t)
  }

  function HealthyOthers(targets: seq<Target>, nodes: Nodes, target: Target): set<string> {
    set t | t in targets && Counts(t, nodes, target) :: Lower(Seen(nodes, t).chain.proTxHash)
  }

  /** What a withdrawal needs: every quorum any fleet validator reports keeps
    * more than two thirds in healthy owned members other than the target. */
  ghost predicate QuorumHolds(targets: seq<Target>, nodes: Nodes, target: Target) {
    target.role == ValidatorNode ==>
      forall t :: t in targets && t.role == ValidatorNode ==>
        Kept(Seen(nodes, t).chain.votingPower, HealthyOthers(targets, nodes, target))
  }

  lemma NoPower(powers: map<string, int>, healthy: set<string>)
    ensures Power(powers, {}) == 0 == Power(powers, {} * healthy) && Bounded(powers, {})
  {
  }

  lemma Fewer(some: set<string>, all: set<string>)
    requires some <= all
    ensures |some| <= |all|
  {
    assert all == some + (all - some);
  }

  lemma Grow(powers: map<string, int>, done: set<string>, id: string, healthy: set<string>)
    requires done <= powers.Keys && id in powers && id !in done
    ensures Power(powers, done + {id}) == Power(powers, done) + powers[id]
    ensures Power(powers, (done + {id}) * healthy)
         == Power(powers, done * healthy) + if id in healthy then powers[id] else 0
  {
    PowerStep(powers, done + {id}, id);
    assert done + {id} - {id} == done;
    if id in healthy {
      PowerStep(powers, (done + {id}) * healthy, id);
      assert (done + {id}) * healthy - {id} == done * healthy;
    } else {
      assert (done + {id}) * healthy == done * healthy;
    }
  }

  /** The power of at most so many members does not wrap around, even doubled. */
  lemma PowerFits(powers: map<string, int>, ids: set<string>)
    requires |powers| <= MaxMembers && ids <= powers.Keys && forall i :: i in ids ==> 0 < powers[i] <= MaxPower
    ensures 0 <= Power(powers, ids) && 2 * Power(powers, ids) < 0x8000_0000_0000_0000
    ensures Wrap64(Power(powers, ids)) == Power(powers, ids)
  {
    hide Power;
    PowerBounds(powers, ids);
    Fewer(ids, powers.Keys);
  }

  predicate Bounded(powers: map<string, int>, ids: set<string>)
    requires ids <= powers.Keys
  {
    forall id :: id in ids ==> Hex64(id) && 0 < powers[id] <= MaxPower
  }

  lemma OneMore(powers: map<string, int>, done: set<string>, id: string)
    requires done <= powers.Keys && Bounded(powers, done) && id in powers && Hex64(id) && 0 < powers[id] <= MaxPower
    ensures Bounded(powers, done + {id})
  {
  }

  lemma Unbounded(powers: map<string, int>, id: string, healthy: set<string>)
    requires id in powers && !(Hex64(id) && 0 < powers[id] <= MaxPower)
    ensures !Kept(powers, healthy)
  {
  }

  /** One turn of the two sums. */
  lemma SumsGrow(powers: map<string, int>, done: set<string>, id: string, healthy: set<string>)
    requires |powers| <= MaxMembers && done + {id} <= powers.Keys && id !in done && Bounded(powers, done + {id})
    ensures Wrap64(Power(powers, done) + powers[id]) == Power(powers, done + {id})
    ensures Power(powers, (done + {id}) * healthy)
         == if id in healthy then Wrap64(Power(powers, done * healthy) + powers[id]) else Power(powers, done * healthy)
  {
    hide Power, Wrap64, Hex64;
    Grow(powers, done, id, healthy);
    PowerFits(powers, done + {id});
    PowerFits(powers, (done + {id}) * healthy);
  }

  lemma SumsDecide(powers: map<string, int>, healthy: set<string>)
    requires |powers| <= MaxMembers && powers != map[] && Bounded(powers, powers.Keys)
    ensures !Refused(Power(powers, powers.Keys), Power(powers, powers.Keys * healthy)) <==> Kept(powers, healthy)
  {
    hide Power, Wrap64, Hex64;
    PowerFits(powers, powers.Keys);
    RefusalIsExact(Power(powers, powers.Keys), Power(powers, powers.Keys * healthy));
  }

  /** One reported quorum, summed in any order. */
  method KeepsQuorum(powers: map<string, int>, healthy: set<string>) returns (ok: bool)
    ensures |powers| <= MaxMembers ==> (ok <==> Kept(powers, healthy))
  {
    hide Power, Bounded, Wrap64, Refused;
    if powers == map[] {
      return false;
    }
    var rest, total, remaining := powers.Keys, 0, 0;
    ghost var done: set<string> := {};
    NoPower(powers, healthy);
    while rest != {}
      invariant done !! rest && done + rest == powers.Keys && Bounded(powers, done)
      invariant |powers| <= MaxMembers ==> total == Power(powers, done) && remaining == Power(powers, done * healthy)
    {
      var id: string :| id in rest;
      if !Hex64(id) || powers[id] <= 0 || powers[id] > MaxPower {
        Unbounded(powers, id, healthy);
        return false;
      }
      OneMore(powers, done, id);
      if |powers| <= MaxMembers {
        SumsGrow(powers, done, id, healthy);
      }
      total := Wrap64(total + powers[id]);
      if id in healthy {
        remaining := Wrap64(remaining + powers[id]);
      }
      done, rest := done + {id}, rest - {id};
    }
    ok := !Refused(total, remaining);
    if |powers| <= MaxMembers {
      assert done == powers.Keys;
      SumsDecide(powers, healthy);
    }
  }

  predicate Countable(targets: seq<Target>, nodes: Nodes) {
    forall t :: t in targets ==> |Seen(nodes, t).chain.votingPower| <= MaxMembers
  }

  /** The target's own power never counts for it, as long as no other fleet
    * validator claims the same masternode. */
  lemma TargetIsNotCounted(targets: seq<Target>, nodes: Nodes, target: Target)
    requires forall t :: t in targets && t.name != target.name ==>
      Lower(Seen(nodes, t).chain.proTxHash) != Lower(Seen(nodes, target).chain.proTxHash)
    ensures Lower(Seen(nodes, target).chain.proTxHash) !in HealthyOthers(targets, nodes, target)
  {
    forall t | t in targets && Counts(t, nodes, target)
      ensures Lower(Seen(nodes, t).chain.proTxHash) != Lower(Seen(nodes, target).chain.proTxHash)
    {
      assert t.name != target.name;
    }
  }

  method CollectHealthy(targets: seq<Target>, nodes: Nodes, target: Target) returns (healthy: set<string>)
    ensures healthy == HealthyOthers(targets, nodes, target)
  {
    hide Counts;
    healthy := {};
    for i := 0 to |targets|
      invariant healthy == set j | 0 <= j < i && Counts(targets[j], nodes, target) :: Lower(Seen(nodes, targets[j]).chain.proTxHash)
    {
      if Counts(targets[i], nodes, target) {
        healthy := healthy + {Lower(Seen(nodes, targets[i]).chain.proTxHash)};
      }
    }
    assert forall t :: t in targets ==> exists j :: 0 <= j < |targets| && targets[j] == t;
  }

  /** The withdrawal test over every quorum the fleet's validators report. */
  method CanWithdraw(targets: seq<Target>, nodes: Nodes, target: Target) returns (ok: bool)
    ensures Countable(targets, nodes) ==> (ok <==> QuorumHolds(targets, nodes, target))
  {
    hide Kept, Healthy, HealthyOthers;
    if target.role != ValidatorNode {
      return true;
    }
    var healthy := CollectHealthy(targets, nodes, target);
    for i := 0 to |targets|
      invariant Countable(targets, nodes) ==>
        forall j :: 0 <= j < i && targets[j].role == ValidatorNode ==> Kept(Seen(nodes, targets[j]).chain.votingPower, healthy)
    {
      if targets[i].role == ValidatorNode {
        assert targets[i] in targets;
        ok := KeepsQuorum(Seen(nodes, targets[i]).chain.votingPower, healthy);
        if !ok {
          return;
        }
      }
    }
    ok := true;
  }
}
