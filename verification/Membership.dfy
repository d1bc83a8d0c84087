/** Membership change: joint configs, coherent steps and the two-step driver. `I` is what is known of a
    node besides its id, such as an address. */
module Membership {
  import opened Basics
  import opened Quorums

  datatype Membership<I> = Membership(configs: seq<set<NodeId>>, nodes: map<NodeId, I>)

  datatype ChangeMembers<I> =
    | AddVoterIds(ids: set<NodeId>)
    | AddVoters(nodes: map<NodeId, I>)
    | RemoveVoters(ids: set<NodeId>)
    | ReplaceAllVoters(ids: set<NodeId>)
    | AddNodes(nodes: map<NodeId, I>)
    | SetNodes(nodes: map<NodeId, I>)
    | RemoveNodes(ids: set<NodeId>)
    | ReplaceAllNodes(nodes: map<NodeId, I>)

  datatype MembershipError = EmptyMembership | NodeNotFound(id: NodeId)

  /** The members of all sub-configs. */
  function Voters(configs: seq<set<NodeId>>): set<NodeId> {
    set i, id | 0 <= i < |configs| && id in configs[i] :: id
  }

  /** No sub-config is empty, and every voter has a node. */
  predicate Valid<I>(m: Membership<I>) {
    (forall i :: 0 <= i < |m.configs| ==> m.configs[i] != {}) && Voters(m.configs) <= m.nodes.Keys
  }

  predicate IsVoterChange<I>(c: ChangeMembers<I>) {
    c.AddVoterIds? || c.AddVoters? || c.RemoveVoters? || c.ReplaceAllVoters?
  }

  function LastConfig(configs: seq<set<NodeId>>): set<NodeId> {
    if |configs| == 0 then {} else configs[|configs| - 1]
  }

  /** The voters a change aims at, computed from the last sub-config. */
  function Goal<I>(configs: seq<set<NodeId>>, c: ChangeMembers<I>): set<NodeId>
    requires IsVoterChange(c)
  {
    match c
    case AddVoterIds(ids) => LastConfig(configs) + ids
    case AddVoters(nodes) => LastConfig(configs) + nodes.Keys
    case RemoveVoters(ids) => LastConfig(configs) - ids
    case ReplaceAllVoters(ids) => ids
  }

  /** The next config on the way to `goal`: itself if it is a sub-config already, else a joint of the last
      sub-config and it. */
  function Coherent(configs: seq<set<NodeId>>, goal: set<NodeId>): seq<set<NodeId>> {
    if goal in configs || |configs| == 0 then [goal] else [LastConfig(configs), goal]
  }

  function NextCoherent<I>(m: Membership<I>, goal: set<NodeId>, retain: bool): Membership<I> {
    var configs := Coherent(m.configs, goal);
    Membership(configs, if retain then m.nodes else m.nodes - (Voters(m.configs) - Voters(configs)))
  }

  /** The membership a change leads to, before it is checked. Existing nodes are not replaced, except by
      `SetNodes` and `ReplaceAllNodes`. */
  function ChangeTo<I>(m: Membership<I>, c: ChangeMembers<I>, retain: bool): Membership<I> {
    match c
    case AddVoters(nodes) => NextCoherent(m.(nodes := nodes + m.nodes), Goal(m.configs, c), retain)
    case AddNodes(nodes) => m.(nodes := nodes + m.nodes)
    case SetNodes(nodes) => m.(nodes := m.nodes + nodes)
    case RemoveNodes(ids) => m.(nodes := m.nodes - ids)
    case ReplaceAllNodes(nodes) => m.(nodes := nodes)
    case _ => NextCoherent(m, Goal(m.configs, c), retain)
  }

  // ---- safety of one change and of a chain of changes ----

  /** Every quorum of one meets every quorum of the other. */
  ghost predicate Meet(p: seq<set<NodeId>>, q: seq<set<NodeId>>) {
    forall a, b :: IsQuorum(p, a) && IsQuorum(q, b) ==> a * b != {}
  }

  lemma SharedConfigMeets(p: seq<set<NodeId>>, q: seq<set<NodeId>>, c: set<NodeId>)
    requires c in p && c in q
    ensures Meet(p, q)
  {
    forall a, b | IsQuorum(p, a) && IsQuorum(q, b)
      ensures a * b != {}
    {
      var n := QuorumsIntersect(p, q, c, a, b);
      assert n in a * b;
    }
  }

  /** Whoever a config consists of is a majority of it, unless it is empty. */
  lemma AllAreQuorum(configs: seq<set<NodeId>>)
    requires forall i :: 0 <= i < |configs| ==> configs[i] != {}
    ensures IsQuorum(configs, Voters(configs))
  {
    forall i | 0 <= i < |configs|
      ensures IsMajority(configs[i], Voters(configs))
    {
      assert configs[i] * Voters(configs) == configs[i];
    }
  }

  lemma ChangeShares<I>(m: Membership<I>, c: ChangeMembers<I>, retain: bool)
    requires |m.configs| > 0
    ensures exists s :: s in m.configs && s in ChangeTo(m, c, retain).configs
  {
    var next := ChangeTo(m, c, retain).configs;
    if IsVoterChange(c) {
      var goal := Goal(m.configs, c);
      if goal in m.configs {
        assert goal == next[0];
      } else {
        assert LastConfig(m.configs) == next[0] && LastConfig(m.configs) in m.configs;
      }
    } else {
      assert m.configs[0] in next;
    }
  }

  /** A successful change is safe if and only if the old membership has a config at all. */
  lemma ChangeIsSafeIff<I>(m: Membership<I>, c: ChangeMembers<I>, retain: bool)
    requires Valid(ChangeTo(m, c, retain))
    ensures Meet(m.configs, ChangeTo(m, c, retain).configs) <==> |m.configs| > 0
  {
    var next := ChangeTo(m, c, retain).configs;
    if |m.configs| > 0 {
      ChangeShares(m, c, retain);
      var s :| s in m.configs && s in next;
      SharedConfigMeets(m.configs, next, s);
    } else {
      AllAreQuorum(next);
      assert IsQuorum(m.configs, {}) && {} * Voters(next) == {};
    }
  }

  datatype Request<I> = Request(change: ChangeMembers<I>, retain: bool)

  /** The memberships along a chain of requests; one that is not valid is refused and changes nothing. */
  function Chain<I>(m: Membership<I>, reqs: seq<Request<I>>): (r: seq<Membership<I>>)
    ensures |r| == |reqs| + 1 && r[0] == m
    decreases |reqs|
  {
    if |reqs| == 0 then [m]
    else
      var next := ChangeTo(m, reqs[0].change, reqs[0].retain);
      [m] + Chain(if Valid(next) then next else m, reqs[1..])
  }

  /** Along any chain of changes from a membership with a config, adjacent memberships have quorums that
      meet, and all of them are valid and have a config. */
  lemma {:induction false} ChainIsSafe<I>(m: Membership<I>, reqs: seq<Request<I>>, i: nat)
    requires Valid(m) && |m.configs| > 0 && i < |reqs|
    ensures var r := Chain(m, reqs);
            Meet(r[i].configs, r[i + 1].configs) && Valid(r[i + 1]) && |r[i + 1].configs| > 0
    decreases |reqs|
  {
    var next := ChangeTo(m, reqs[0].change, reqs[0].retain);
    var m' := if Valid(next) then next else m;
    ChangeShares(m, reqs[0].change, reqs[0].retain);
    if i > 0 {
      ChainIsSafe(m', reqs[1..], i - 1);
    } else if Valid(next) {
      ChangeIsSafeIff(m, reqs[0].change, reqs[0].retain);
    } else {
      assert m.configs[0] in m.configs;
      SharedConfigMeets(m.configs, m.configs, m.configs[0]);
    }
  }

  // ---- the two-step driver ----

  /** Apply the change; if the outcome is joint, apply the same change again. */
  function Drive<I>(m: Membership<I>, c: ChangeMembers<I>, retain: bool): Membership<I> {
    var m1 := ChangeTo(m, c, retain);
    if |m1.configs| == 1 then m1 else ChangeTo(m1, c, retain)
  }

  lemma GoalStays<I>(configs: seq<set<NodeId>>, last: set<NodeId>, c: ChangeMembers<I>)
    requires IsVoterChange(c)
    ensures Goal([last, Goal(configs, c)], c) == Goal(configs, c)
  {
  }

  lemma VotersOne(goal: set<NodeId>)
    ensures Voters([goal]) == goal
  {
    assert forall id :: id in goal ==> id in [goal][0];
  }

  lemma VotersTwo(a: set<NodeId>, b: set<NodeId>)
    ensures Voters([a, b]) == a + b
  {
    assert forall id :: id in a ==> id in [a, b][0];
    assert forall id :: id in b ==> id in [a, b][1];
  }

  /** The nodes a voter change works with: those there are, and those it adds. */
  function WithAdded<I>(m: Membership<I>, c: ChangeMembers<I>): map<NodeId, I> {
    if c.AddVoters? then c.nodes + m.nodes else m.nodes
  }

  lemma FirstStep<I>(m: Membership<I>, c: ChangeMembers<I>, retain: bool)
    requires IsVoterChange(c)
    ensures ChangeTo(m, c, retain) == NextCoherent(m.(nodes := WithAdded(m, c)), Goal(m.configs, c), retain)
  {
  }

  /** A voter change driven to its end gives exactly the goal, as the only config. Without `retain` the
      nodes removed are exactly the old voters that are not in the goal; learners are untouched. If the
      first step is accepted, so is the second. */
  lemma DriveReachesGoal<I>(m: Membership<I>, c: ChangeMembers<I>, retain: bool)
    requires IsVoterChange(c)
    ensures var goal := Goal(m.configs, c);
            Drive(m, c, retain).configs == [goal]
            && Drive(m, c, retain).nodes
               == (if retain then WithAdded(m, c) else WithAdded(m, c) - (Voters(m.configs) - goal))
    ensures Valid(ChangeTo(m, c, retain)) ==> Valid(Drive(m, c, retain))
  {
    var goal := Goal(m.configs, c);
    FirstStep(m, c, retain);
    VotersOne(goal);
    if goal !in m.configs && |m.configs| > 0 {
      SecondStep(m, c, retain);
    }
  }

  lemma LastIsVoters(configs: seq<set<NodeId>>)
    ensures LastConfig(configs) <= Voters(configs)
  {
  }

  lemma SecondStep<I>(m: Membership<I>, c: ChangeMembers<I>, retain: bool)
    requires IsVoterChange(c) && |m.configs| > 0 && Goal(m.configs, c) !in m.configs
    ensures var goal := Goal(m.configs, c);
            var m1 := ChangeTo(m, c, retain);
            var m2 := ChangeTo(m1, c, retain);
            m1.configs == [LastConfig(m.configs), goal] && m2.configs == [goal]
            && m2.nodes == (if retain then WithAdded(m, c) else WithAdded(m, c) - (Voters(m.configs) - goal))
            && (Valid(m1) ==> Valid(m2))
  {
    var goal, last := Goal(m.configs, c), LastConfig(m.configs);
    var m1 := ChangeTo(m, c, retain);
    FirstStep(m, c, retain);
    FirstStep(m1, c, retain);
    GoalStays(m.configs, last, c);
    VotersOne(goal);
    VotersTwo(last, goal);
    LastIsVoters(m.configs);
    assert m1.configs[1] == goal;
    assert goal in m1.configs;
    assert WithAdded(m1, c) == m1.nodes;
  }

  /** Who votes after a voter change, driven to its end. */
  lemma DriveVoters<I>(m: Membership<I>, c: ChangeMembers<I>, retain: bool)
    requires IsVoterChange(c)
    ensures |Drive(m, c, retain).configs| == 1
    ensures var last := if |m.configs| == 0 then {} else m.configs[|m.configs| - 1];
            var now := Drive(m, c, retain).configs[0];
            (c.AddVoterIds? ==> forall id :: id in now <==> id in last || id in c.ids)
            && (c.AddVoters? ==> forall id :: id in now <==> id in last || id in c.nodes)
            && (c.RemoveVoters? ==> forall id :: id in now <==> id in last && id !in c.ids)
            && (c.ReplaceAllVoters? ==> forall id :: id in now <==> id in c.ids)
  {
    DriveReachesGoal(m, c, retain);
  }

  /** The nodes after a voter change, driven to its end, key by key: those there were and those that came with the
      change, but for former voters that vote no more and are not to be retained; none is replaced. */
  lemma DriveNodes<I>(m: Membership<I>, c: ChangeMembers<I>, retain: bool, id: NodeId)
    requires IsVoterChange(c)
    ensures var d := Drive(m, c, retain);
            (id in d.nodes <==>
               (id in m.nodes || (c.AddVoters? && id in c.nodes))
               && (retain || id in Voters(d.configs) || id !in Voters(m.configs)))
            && (id in d.nodes ==> d.nodes[id] == if id in m.nodes then m.nodes[id] else c.nodes[id])
  {
    DriveReachesGoal(m, c, retain);
    VotersOne(Goal(m.configs, c));
  }

  /** A change of nodes leaves the voters, and leaves of the nodes, key by key: old and new ones with the old or the
      new information, those not removed, or just the new ones. Driving it does no more than one step. */
  lemma NodesAfter<I>(m: Membership<I>, c: ChangeMembers<I>, retain: bool, id: NodeId)
    requires !IsVoterChange(c)
    ensures var d := ChangeTo(m, c, retain);
            Drive(m, c, retain) == d && d.configs == m.configs
            && (c.AddNodes? ==>
                  (id in d.nodes <==> id in m.nodes || id in c.nodes)
                  && (id in d.nodes ==> d.nodes[id] == if id in m.nodes then m.nodes[id] else c.nodes[id]))
            && (c.SetNodes? ==>
                  (id in d.nodes <==> id in m.nodes || id in c.nodes)
                  && (id in d.nodes ==> d.nodes[id] == if id in c.nodes then c.nodes[id] else m.nodes[id]))
            && (c.RemoveNodes? ==>
                  (id in d.nodes <==> id in m.nodes && id !in c.ids)
                  && (id in d.nodes ==> d.nodes[id] == m.nodes[id]))
            && (c.ReplaceAllNodes? ==>
                  (id in d.nodes <==> id in c.nodes) && (id in d.nodes ==> d.nodes[id] == c.nodes[id]))
  {
    var d := ChangeTo(m, c, retain);
    assert ChangeTo(d, c, retain).nodes == d.nodes;
  }

  // ---- the operations, step by step ----

  method IsCoherentWith(configs: seq<set<NodeId>>, other: set<NodeId>) returns (b: bool)
    ensures b <==> other in configs
  {
    for i := 0 to |configs|
      invariant other !in configs[..i]
    {
      if configs[i] == other {
        return true;
      }
    }
    return false;
  }

  method FindCoherent(configs: seq<set<NodeId>>, goal: set<NodeId>) returns (r: seq<set<NodeId>>)
    ensures r == Coherent(configs, goal)
  {
    var b := IsCoherentWith(configs, goal);
    if b {
      return [goal];
    } else if |configs| > 0 {
      return [configs[|configs| - 1], goal];
    } else {
      return [goal];
    }
  }

  method VoterIds(configs: seq<set<NodeId>>) returns (ids: set<NodeId>)
    ensures ids == Voters(configs)
  {
    ids := {};
    for i := 0 to |configs|
      invariant ids == Voters(configs[..i])
    {
      assert configs[..i + 1] == configs[..i] + [configs[i]];
      VotersAppend(configs[..i], configs[i]);
      ids := ids + configs[i];
    }
    assert configs[..|configs|] == configs;
  }

  lemma VotersAppend(configs: seq<set<NodeId>>, c: set<NodeId>)
    ensures Voters(configs + [c]) == Voters(configs) + c
  {
    var all := configs + [c];
    assert forall i :: 0 <= i < |configs| ==> all[i] == configs[i];
    assert all[|configs|] == c;
    forall id | id in Voters(configs) + c
      ensures id in Voters(all)
    {
      if id in c {
        assert id in all[|configs|];
      } else {
        var i :| 0 <= i < |configs| && id in configs[i];
        assert id in all[i];
      }
    }
  }

  /** Add the nodes that are not there yet. */
  method ExtendNodes<I>(was: map<NodeId, I>, more: map<NodeId, I>) returns (r: map<NodeId, I>)
    ensures r == more + was
  {
    r := was;
    var rest := more.Keys;
    while rest != {}
      invariant rest <= more.Keys && r.Keys == was.Keys + (more.Keys - rest)
      invariant forall k :: k in r ==> r[k] == if k in was then was[k] else more[k]
      decreases |rest|
    {
      var k :| k in rest;
      if k !in r {
        r := r[k := more[k]];
      }
      rest := rest - {k};
    }
  }

  method RemoveNodesFrom<I>(nodes: map<NodeId, I>, ids: set<NodeId>) returns (r: map<NodeId, I>)
    ensures r == nodes - ids
  {
    r := nodes;
    var rest := ids;
    while rest != {}
      invariant rest <= ids && r == nodes - (ids - rest)
      decreases |rest|
    {
      var k :| k in rest;
      r := r - {k};
      rest := rest - {k};
    }
  }

  method NextCoherentStep<I>(m: Membership<I>, goal: set<NodeId>, retain: bool) returns (r: Membership<I>)
    ensures r == NextCoherent(m, goal, retain)
  {
    var configs := FindCoherent(m.configs, goal);
    var nodes := m.nodes;
    if !retain {
      var was := VoterIds(m.configs);
      var now := VoterIds(configs);
      nodes := RemoveNodesFrom(nodes, was - now);
    }
    return Membership(configs, nodes);
  }

  /** An empty sub-config is reported before a voter without a node. */
  method EnsureValid<I>(m: Membership<I>) returns (r: Result<(), MembershipError>)
    ensures r.Ok? <==> Valid(m)
    ensures r.Ok? <==> {} !in m.configs && forall i, id :: 0 <= i < |m.configs| && id in m.configs[i] ==> id in m.nodes
    ensures r == Err(EmptyMembership) <==> {} in m.configs
    ensures r.Err? && r.error.NodeNotFound? ==> r.error.id in Voters(m.configs) && r.error.id !in m.nodes
  {
    for i := 0 to |m.configs|
      invariant forall j :: 0 <= j < i ==> m.configs[j] != {}
    {
      if m.configs[i] == {} {
        return Err(EmptyMembership);
      }
    }
    var rest := VoterIds(m.configs);
    while rest != {}
      invariant rest <= Voters(m.configs) && Voters(m.configs) - rest <= m.nodes.Keys
      decreases |rest|
    {
      var id :| id in rest;
      if id !in m.nodes {
        return Err(NodeNotFound(id));
      }
      rest := rest - {id};
    }
    return Ok(());
  }

  method Change<I>(m: Membership<I>, c: ChangeMembers<I>, retain: bool)
    returns (r: Result<Membership<I>, MembershipError>)
    ensures r.Ok? <==> Valid(ChangeTo(m, c, retain))
    ensures r.Ok? ==> r.value == ChangeTo(m, c, retain)
    ensures r == Err(EmptyMembership) <==> {} in ChangeTo(m, c, retain).configs
  {
    var next: Membership<I>;
    match c {
      case AddVoters(nodes) =>
        var all := ExtendNodes(m.nodes, nodes);
        next := NextCoherentStep(m.(nodes := all), Goal(m.configs, c), retain);
      case AddNodes(nodes) =>
        var all := ExtendNodes(m.nodes, nodes);
        next := m.(nodes := all);
      case SetNodes(nodes) => next := m.(nodes := m.nodes + nodes);
      case RemoveNodes(ids) =>
        var left := RemoveNodesFrom(m.nodes, ids);
        next := m.(nodes := left);
      case ReplaceAllNodes(nodes) => next := m.(nodes := nodes);
      case _ => next := NextCoherentStep(m, Goal(m.configs, c), retain);
    }
    var ok := EnsureValid(next);
    match ok
    case Ok(_) => r := Ok(next);
    case Err(e) => r := Err(e);
  }

  /** The driver: two changes in sequence, with an early return when the first is enough. The second is never
      refused. */
  method ChangeMembership<I>(m: Membership<I>, c: ChangeMembers<I>, retain: bool)
    returns (r: Result<Membership<I>, MembershipError>)
    ensures r.Ok? ==> r.value == Drive(m, c, retain)
    ensures r.Ok? <==> Valid(ChangeTo(m, c, retain))
    ensures r == Err(EmptyMembership) <==> {} in ChangeTo(m, c, retain).configs
  {
    if IsVoterChange(c) {
      DriveReachesGoal(m, c, retain);
    } else {
      NodesAfter(m, c, retain, 0);
    }
    r := Change(m, c, retain);
    if r.Err? || |r.value.configs| == 1 {
      return;
    }
    r := Change(r.value, c, retain);
  }
}
