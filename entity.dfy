/** Groups of entities and the entities in them. A Group owns a dict from
    slug to Entity that `AddEntity` writes into; an Entity keeps its last
    known State in a field that fetching or setting the state replaces. */
module Entities {
  import opened Wrappers
  import opened Values
  import opened Errors
  import opened Text
  import opened States
  import opened Histories
  import opened Remote

  class Group {
    const groupId: string
    const client: Server
    var entities: map<string, Entity>

    constructor (groupId: string, client: Server)
      ensures this.groupId == groupId && this.client == client
      ensures entities == map[]
    {
      this.groupId := groupId;
      this.client := client;
      entities := map[];
    }

    /** Registers a new Entity under `slug`, replacing any entity already
        registered under it. */
    method AddEntity(slug: string, state: State) returns (e: Entity)
      modifies this
      ensures fresh(e)
      ensures e.slug == slug && e.state == state && e.group == this
      ensures entities == old(entities)[slug := e]
    {
      e := new Entity(slug, state, this);
      entities := entities[slug := e];
    }

    /** The entity registered under `slug`, if any. */
    function GetEntity(slug: string): (r: Option<Entity>)
      reads this
      ensures r.Some? <==> slug in entities
      ensures r.Some? ==> r.value == entities[slug]
    {
      if slug in entities then Some(entities[slug]) else None
    }
  }

  class Entity {
    const slug: string
    const group: Group
    var state: State

    constructor (slug: string, state: State, group: Group)
      ensures this.slug == slug && this.state == state && this.group == group
    {
      this.slug := slug;
      this.state := state;
      this.group := group;
    }

    /** The `entity_id` property: group id and slug joined by a dot, with
        surrounding whitespace stripped. The dot always survives, and a group
        id that does not start with whitespace joined to a slug that does not
        end with it comes back unchanged. */
    function EntityId(): (r: string)
      ensures r == Strip(group.groupId + "." + slug)
      ensures '.' in r
      ensures r == [] || (!IsSpace(r[0]) && !IsSpace(r[|r| - 1]))
      ensures (group.groupId == [] || !IsSpace(group.groupId[0])) && (slug == [] || !IsSpace(slug[|slug| - 1]))
              ==> r == group.groupId + "." + slug
    {
      var joined := group.groupId + "." + slug;
      assert joined[|group.groupId|] == '.';
      Strip(joined)
    }

    /** Fetches the entity's state and caches it. */
    method GetState() returns (r: Result<State, Error>)
      modifies this
      ensures var reply := group.client.request(Get(PathJoin("states", [EntityId()])));
              r == (if reply.Failure? then Failure(reply.error) else ParseState(reply.value))
      ensures r.Success? ==> state == r.value
      ensures r.Failure? ==> state == old(state)
    {
      var reply := group.client.request(Get(PathJoin("states", [EntityId()])));
      if reply.Failure? {
        return Failure(reply.error);
      }
      r := ParseState(reply.value);
      if r.Success? {
        state := r.value;
      }
    }

    /** Posts `newState` for this entity and caches the State the server
        echoes back. */
    method SetState(newState: State) returns (r: Result<State, Error>)
      modifies this
      ensures var reply := group.client.request(Post(PathJoin("states", [group.groupId + "." + slug]), Some(StateValue(newState))));
              r == (if reply.Failure? then Failure(reply.error) else ParseState(reply.value))
      ensures r.Success? ==> state == r.value
      ensures r.Failure? ==> state == old(state)
    {
      var reply := group.client.request(Post(PathJoin("states", [group.groupId + "." + slug]), Some(StateValue(newState))));
      if reply.Failure? {
        return Failure(reply.error);
      }
      r := ParseState(reply.value);
      if r.Success? {
        state := r.value;
      }
    }

    /** The first History the client yields for this entity, or None when it
        yields none. */
    method GetHistory(start: Option<DateTime>, end: Option<DateTime>, minimal: bool, significantOnly: bool)
      returns (r: Result<Option<History>, Error>)
      ensures var reply := group.client.entityHistories(HistoryQuery([EntityId()], start, end, minimal, significantOnly));
              && (reply.Failure? ==> r == Failure(reply.error))
              && (reply.Success? && reply.value == [] ==> r == Success(None))
              && (reply.Success? && reply.value != [] ==> r == Success(Some(reply.value[0])))
    {
      var query := HistoryQuery([EntityId()], start, end, minimal, significantOnly);
      var reply := group.client.entityHistories(query);
      if reply.Failure? {
        return Failure(reply.error);
      }
      var history: Option<History> := None;
      var histories := reply.value;
      if histories != [] {
        history := Some(histories[0]);
      }
      r := Success(history);
    }
  }
}
