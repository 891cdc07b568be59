/** How the clients turn states into Groups of Entities: each state's entity
    id is split at "." into a group id and a slug; a Group is created for
    each group id the first time it is seen and the state is registered
    under its slug, a later state for the same slug replacing an earlier
    one. */
module Grouping {
  import opened Wrappers
  import opened Values
  import opened Errors
  import opened Text
  import opened OrderedDicts
  import opened States
  import opened Entities
  import Remote

  /** `group_id, slug = state.entity_id.split(".")` unpacks. */
  predicate SplitsInTwo(st: State) {
    |Split(st.entityId, '.')| == 2
  }

  /** The first `n` states all split. */
  predicate AllSplit(states: seq<State>, n: nat) {
    n <= |states| && forall i :: 0 <= i < n ==> SplitsInTwo(states[i])
  }

  function GroupOf(st: State): string
    requires SplitsInTwo(st)
  {
    Split(st.entityId, '.')[0]
  }

  function SlugOf(st: State): string
    requires SplitsInTwo(st)
  {
    Split(st.entityId, '.')[1]
  }

  /** The group id and the slug rebuild the entity id, and neither holds a ".". */
  lemma SplitRebuilds(st: State)
    requires SplitsInTwo(st)
    ensures GroupOf(st) + "." + SlugOf(st) == st.entityId
    ensures '.' !in GroupOf(st) && '.' !in SlugOf(st)
  {
    var parts := Split(st.entityId, '.');
    JoinSplit(st.entityId, '.');
    assert parts[1..] == [parts[1]];
  }

  /** The group ids of the first `n` states, in order of first appearance. */
  function GroupIds(states: seq<State>, n: nat): seq<string>
    requires AllSplit(states, n)
    decreases n
  {
    if n == 0 then []
    else
      var ids := GroupIds(states, n - 1);
      var g := GroupOf(states[n - 1]);
      if g in ids then ids else ids + [g]
  }

  /** The first `n` states of group `gid` by slug; for a slug seen twice, the
      later state. */
  function Members(states: seq<State>, n: nat, gid: string): map<string, State>
    requires AllSplit(states, n)
    decreases n
  {
    if n == 0 then map[]
    else
      var m := Members(states, n - 1, gid);
      var st := states[n - 1];
      if GroupOf(st) == gid then m[SlugOf(st) := st] else m
  }

  /** Each group id is listed once, and exactly the group ids of the states
      are listed. */
  lemma {:induction false} GroupIdsMeaning(states: seq<State>, n: nat)
    requires AllSplit(states, n)
    ensures forall i, j :: 0 <= i < j < |GroupIds(states, n)| ==> GroupIds(states, n)[i] != GroupIds(states, n)[j]
    ensures forall g :: g in GroupIds(states, n) <==> exists i :: 0 <= i < n && GroupOf(states[i]) == g
    decreases n
  {
    if n != 0 {
      GroupIdsMeaning(states, n - 1);
    }
  }

  /** A group id no state has has no members. */
  lemma {:induction false} MembersAbsent(states: seq<State>, n: nat, gid: string)
    requires AllSplit(states, n)
    requires gid !in GroupIds(states, n)
    ensures Members(states, n, gid) == map[]
    decreases n
  {
    if n != 0 {
      assert GroupIds(states, n - 1) <= GroupIds(states, n);
      MembersAbsent(states, n - 1, gid);
    }
  }

  /** A slug is a member of a group exactly when some state of that group
      has it. */
  lemma {:induction false} MembersMeaning(states: seq<State>, n: nat, gid: string, slug: string)
    requires AllSplit(states, n)
    ensures slug in Members(states, n, gid) <==>
            exists i :: 0 <= i < n && GroupOf(states[i]) == gid && SlugOf(states[i]) == slug
    decreases n
  {
    if n != 0 {
      MembersMeaning(states, n - 1, gid, slug);
    }
  }

  /** The state a member slug maps to is the last state of that group with
      that slug. */
  lemma {:induction false} MembersLatest(states: seq<State>, n: nat, gid: string, slug: string)
    requires AllSplit(states, n)
    requires slug in Members(states, n, gid)
    ensures exists i :: 0 <= i < n && Members(states, n, gid)[slug] == states[i] &&
                        GroupOf(states[i]) == gid && SlugOf(states[i]) == slug &&
                        forall j :: i < j < n ==> !(GroupOf(states[j]) == gid && SlugOf(states[j]) == slug)
    decreases n
  {
    var st := states[n - 1];
    if GroupOf(st) == gid && SlugOf(st) == slug {
      assert Members(states, n, gid)[slug] == states[n - 1];
    } else {
      MembersLatest(states, n - 1, gid, slug);
      var i :| 0 <= i < n - 1 && Members(states, n - 1, gid)[slug] == states[i] &&
               GroupOf(states[i]) == gid && SlugOf(states[i]) == slug &&
               forall j :: i < j < n - 1 ==> !(GroupOf(states[j]) == gid && SlugOf(states[j]) == slug);
      assert Members(states, n, gid)[slug] == states[i];
    }
  }

  /** Group `g` is registered under `gid` for `server` and holds one Entity
      per member state, under its slug and pointing back to `g`. */
  ghost predicate Registered(g: Group, gid: string, server: Remote.Server, members: map<string, State>)
    reads g, g.entities.Values
  {
    && g.groupId == gid
    && g.client == server
    && g.entities.Keys == members.Keys
    && forall slug :: slug in g.entities ==>
         g.entities[slug].slug == slug && g.entities[slug].group == g && g.entities[slug].state == members[slug]
  }

  /** One state more: it becomes the member of its group under its slug. */
  lemma MembersStep(states: seq<State>, i: nat, gid: string)
    requires i < |states| && AllSplit(states, i + 1)
    ensures Members(states, i + 1, gid) ==
            if GroupOf(states[i]) == gid then Members(states, i, gid)[SlugOf(states[i]) := states[i]]
            else Members(states, i, gid)
  {
  }

  /** Registering one more state in a registered group. */
  method Register(g: Group, ghost gid: string, ghost server: Remote.Server, ghost members: map<string, State>,
                  slug: string, st: State) returns (e: Entity)
    requires Registered(g, gid, server, members)
    modifies g
    ensures Registered(g, gid, server, members[slug := st])
    ensures fresh(e) && g.entities == old(g.entities)[slug := e]
  {
    e := g.AddEntity(slug, st);
  }

  /** Appending the group id of state `i`, not seen so far, gives the group
      ids of one state more. */
  lemma AppendKeys(groups: ODict<Group>, g: Group, states: seq<State>, i: nat)
    requires i < |states| && AllSplit(states, i + 1)
    requires DistinctKeys(groups) && Keys(groups) == GroupIds(states, i)
    requires GroupOf(states[i]) !in Keys(groups)
    ensures DistinctKeys(groups + [(GroupOf(states[i]), g)])
    ensures Keys(groups + [(GroupOf(states[i]), g)]) == GroupIds(states, i + 1)
  {
    assert groups + [(GroupOf(states[i]), g)] == PutNew(groups, GroupOf(states[i]), g);
  }

  /** Appending an empty Group for a group id with no members so far keeps
      every group registered. */
  lemma AppendRegistered(groups: ODict<Group>, g: Group, states: seq<State>, i: nat, server: Remote.Server)
    requires i < |states| && AllSplit(states, i + 1)
    requires forall j :: 0 <= j < |groups| ==>
               Registered(groups[j].1, groups[j].0, server, Members(states, i, groups[j].0))
    requires GroupOf(states[i]) !in GroupIds(states, i)
    requires g.groupId == GroupOf(states[i]) && g.client == server && g.entities == map[]
    ensures var next := groups + [(GroupOf(states[i]), g)];
            forall j :: 0 <= j < |next| ==>
              Registered(next[j].1, next[j].0, server, Members(states, i, next[j].0))
  {
    MembersAbsent(states, i, GroupOf(states[i]));
  }

  /** The groups with one for the group id of state `i`: the one already
      there, or a new Group appended. */
  method GroupFor(groups: ODict<Group>, states: seq<State>, i: nat, server: Remote.Server, ghost repr: set<object>)
    returns (next: ODict<Group>, g: Group)
    requires i < |states| && AllSplit(states, i + 1)
    requires DistinctKeys(groups) && Keys(groups) == GroupIds(states, i)
    requires forall j :: 0 <= j < |groups| ==> groups[j].1 in repr && groups[j].1.entities.Values <= repr
    requires forall j :: 0 <= j < |groups| ==>
               Registered(groups[j].1, groups[j].0, server, Members(states, i, groups[j].0))
    ensures DistinctKeys(next) && Keys(next) == GroupIds(states, i + 1)
    ensures (GroupOf(states[i]), g) in next
    ensures next == groups || (next == groups + [(GroupOf(states[i]), g)] && fresh(g))
    ensures forall j :: 0 <= j < |next| ==> next[j].1 in repr + {g} && next[j].1.entities.Values <= repr
    ensures forall j :: 0 <= j < |next| ==>
              Registered(next[j].1, next[j].0, server, Members(states, i, next[j].0))
  {
    var found := Get(groups, GroupOf(states[i]));
    if found.None? {
      var gid := GroupOf(states[i]);
      g := new Group(gid, server);
      next := groups + [(gid, g)];
      AppendKeys(groups, g, states, i);
      AppendRegistered(groups, g, states, i, server);
      assert next[|groups|] == (gid, g);
    } else {
      g := found.value;
      next := groups;
    }
  }

  /** `groups` is what grouping the first `n` states gives: keyed by their
      group ids in order of first appearance, one Group object per key, each
      registered with its members. */
  ghost predicate Grouped(groups: ODict<Group>, states: seq<State>, n: nat, server: Remote.Server, repr: set<object>)
    reads repr
  {
    AllSplit(states, n) && Keyed(groups, states, n) && AllRegistered(groups, states, n, server, repr)
  }

  /** The keys are the group ids of the first `n` states, in order. */
  predicate Keyed(groups: ODict<Group>, states: seq<State>, n: nat)
    requires AllSplit(states, n)
  {
    DistinctKeys(groups) && Keys(groups) == GroupIds(states, n)
  }

  /** Every group, and every entity in it, lies in `repr`, and every group
      is registered with its members among the first `n` states. */
  ghost predicate AllRegistered(groups: ODict<Group>, states: seq<State>, n: nat, server: Remote.Server, repr: set<object>)
    requires AllSplit(states, n)
    reads repr
  {
    forall j :: 0 <= j < |groups| ==>
      && groups[j].1 in repr && groups[j].1.entities.Values <= repr
      && Registered(groups[j].1, groups[j].0, server, Members(states, n, groups[j].0))
  }

  /** Registering state `i` in `g`, the Group for its group id among
      `next`: every group of `next` is then registered with its members
      among the first `i + 1` states. */
  method Admit(next: ODict<Group>, g: Group, states: seq<State>, i: nat, server: Remote.Server, ghost repr: set<object>)
    returns (e: Entity)
    requires i < |states| && AllSplit(states, i + 1)
    requires DistinctKeys(next) && (GroupOf(states[i]), g) in next
    requires forall j :: 0 <= j < |next| ==> next[j].1 in repr + {g} && next[j].1.entities.Values <= repr
    requires forall j :: 0 <= j < |next| ==>
               Registered(next[j].1, next[j].0, server, Members(states, i, next[j].0))
    modifies g
    ensures fresh(e)
    ensures forall j :: 0 <= j < |next| ==> next[j].1 in repr + {g} && next[j].1.entities.Values <= repr + {e}
    ensures forall j :: 0 <= j < |next| ==>
              Registered(next[j].1, next[j].0, server, Members(states, i + 1, next[j].0))
  {
    var gid, slug := GroupOf(states[i]), SlugOf(states[i]);
    var k :| 0 <= k < |next| && next[k] == (gid, g);
    assert Registered(g, gid, server, Members(states, i, gid));
    label before:
    e := Register(g, gid, server, Members(states, i, gid), slug, states[i]);
    forall j | 0 <= j < |next|
      ensures next[j].1 in repr + {g} && next[j].1.entities.Values <= repr + {e}
      ensures Registered(next[j].1, next[j].0, server, Members(states, i + 1, next[j].0))
    {
      MembersStep(states, i, next[j].0);
      if next[j].0 == gid {
        assert next[j].1 == g;
      } else {
        assert next[j].1.groupId != gid;
        assert old@before(Registered(next[j].1, next[j].0, server, Members(states, i, next[j].0)));
        assert unchanged@before(next[j].1);
      }
    }
  }

  /** One pass of the grouping loop: the state at `i` is split and
      registered, in the Group for its group id, made if there is none yet. */
  method GroupStep(groups: ODict<Group>, states: seq<State>, i: nat, server: Remote.Server, ghost repr: set<object>)
    returns (r: Result<ODict<Group>, Error>, ghost repr': set<object>)
    requires i < |states| && Grouped(groups, states, i, server, repr)
    modifies repr
    ensures r.Success? <==> SplitsInTwo(states[i])
    ensures r.Failure? ==> r.error.ValueError? && !AllSplit(states, |states|)
    ensures r.Success? ==> Grouped(r.value, states, i + 1, server, repr')
    ensures fresh(repr' - repr)
  {
    var st := states[i];
    var parts := Split(st.entityId, '.');
    if |parts| != 2 {
      return Failure(ValueError("expected two values to unpack")), repr;
    }
    assert SplitsInTwo(states[i]);
    assert AllSplit(states, i + 1);
    var gid, slug := parts[0], parts[1];
    assert GroupOf(states[i]) == gid && SlugOf(states[i]) == slug;
    var next, g := GroupFor(groups, states, i, server, repr);
    var e := Admit(next, g, states, i, server, repr);
    repr' := repr + {g, e};
    r := Success(next);
  }

  /** The grouping loop of `get_entities`: the groups come out keyed by
      group id in order of first appearance, one Group object each; a state
      whose id does not split into exactly two parts is a ValueError. */
  method GroupStates(states: seq<State>, server: Remote.Server) returns (r: Result<ODict<Group>, Error>, ghost repr: set<object>)
    ensures r.Success? <==> AllSplit(states, |states|)
    ensures r.Failure? ==> r.error.ValueError?
    ensures r.Success? ==> Grouped(r.value, states, |states|, server, repr) && fresh(repr)
  {
    var groups: ODict<Group> := [];
    repr := {};
    var i := 0;
    while i < |states|
      invariant 0 <= i <= |states|
      // Compared with `true`, the invariant is checked as one fact instead
      // of conjunct by conjunct of the predicates it is made of.
      invariant Grouped(groups, states, i, server, repr) == true
      invariant fresh(repr)
    {
      var step;
      step, repr := GroupStep(groups, states, i, server, repr);
      if step.Failure? {
        return Failure(step.error), repr;
      }
      groups := step.value;
      i := i + 1;
    }
    assert i == |states| && AllSplit(states, |states|);
    r := Success(groups);
  }

  /** The entity lookup of `get_entity`: the fetched state's id is split, a
      fresh Group is made for its group id, and the state is registered and
      looked up again under its slug. */
  method EntityFromState(st: State, server: Remote.Server) returns (r: Result<Option<Entity>, Error>)
    ensures r.Success? <==> SplitsInTwo(st)
    ensures r.Failure? ==> r.error.ValueError?
    ensures r.Success? ==> r.value.Some?
    ensures r.Success? ==> var e := r.value.value;
              && e.state == st && e.slug == SlugOf(st)
              && e.group.groupId == GroupOf(st) && e.group.client == server
              && e.group.entities == map[SlugOf(st) := e]
              && e.group.groupId + "." + e.slug == st.entityId
  {
    var parts := Split(st.entityId, '.');
    if |parts| != 2 {
      return Failure(ValueError("expected two values to unpack"));
    }
    SplitRebuilds(st);
    var group := new Group(parts[0], server);
    var _ := group.AddEntity(parts[1], st);
    r := Success(group.GetEntity(parts[1]));
  }
}
