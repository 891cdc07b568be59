/** The History model: an ordered tuple of States that all belong to one
    entity. */
module Histories {
  import opened Wrappers
  import opened Values
  import opened Errors
  import opened States

  datatype History = History(states: seq<State>)

  /** All states share the first state's entity id. */
  predicate SharesOneId(states: seq<State>) {
    states != [] && forall i :: 0 <= i < |states| ==> states[i].entityId == states[0].entityId
  }

  function IdSet(states: seq<State>): set<string> {
    set i | 0 <= i < |states| :: states[i].entityId
  }

  lemma {:induction false} IdSetSingleton(states: seq<State>)
    ensures IdSet(states) == {} <==> states == []
    ensures |IdSet(states)| == 1 <==> SharesOneId(states)
  {
    if states != [] {
      var id0 := states[0].entityId;
      assert id0 in IdSet(states);
      if |IdSet(states)| == 1 {
        var rest := IdSet(states) - {id0};
        assert |rest| == 0;
        assert rest == {};
        forall i | 0 <= i < |states| ensures states[i].entityId == id0 {
          assert states[i].entityId in IdSet(states);
          assert states[i].entityId !in rest;
        }
      }
      if SharesOneId(states) {
        assert IdSet(states) == {id0};
      }
    }
  }

  /** Construction: the set of entity ids is unpacked into one element and
      asserted to have no others. No states at all fails the unpacking. */
  function NewHistory(states: seq<State>): (r: Result<History, Error>)
    ensures r.Success? <==> SharesOneId(states)
    ensures r.Success? ==> r.value.states == states
    ensures states == [] ==> r.Failure? && r.error.ValueError?
    ensures states != [] && !SharesOneId(states) ==> r == Failure(AssertionError)
  {
    IdSetSingleton(states);
    var ids := IdSet(states);
    if |ids| == 0 then Failure(ValueError("not enough values to unpack"))
    else if |ids| > 1 then Failure(AssertionError)
    else Success(History(states))
  }

  /** The `entity_id` property of a constructed History. */
  function EntityId(h: History): (id: string)
    requires SharesOneId(h.states)
    ensures forall i :: 0 <= i < |h.states| ==> h.states[i].entityId == id
  {
    h.states[0].entityId
  }

  /** Validates each item as a State, in order: it succeeds exactly when
      every item is a State, and otherwise fails with the first failing
      item's error. */
  function ParseStates(items: seq<Value>): (r: Result<seq<State>, Error>)
    ensures r.Success? <==> forall i :: 0 <= i < |items| ==> ParseState(items[i]).Success?
    ensures r.Success? ==> |r.value| == |items|
    ensures r.Success? ==> forall i :: 0 <= i < |items| ==> ParseState(items[i]) == Success(r.value[i])
    ensures r.Failure? ==> exists i :: 0 <= i < |items| && ParseState(items[i]) == Failure(r.error)
                                       && forall j :: 0 <= j < i ==> ParseState(items[j]).Success?
  {
    if items == [] then Success([])
    else
      var first :- ParseState(items[0]);
      var rest :- ParseStates(items[1..]);
      Success([first] + rest)
  }

  /** The JSON the server sends for a sequence of States. */
  function StateValues(states: seq<State>): (vs: seq<Value>)
    ensures |vs| == |states|
    ensures forall i :: 0 <= i < |states| ==> vs[i] == StateValue(states[i])
  {
    seq(|states|, i requires 0 <= i < |states| => StateValue(states[i]))
  }

  /** Parsing the JSON of a sequence of States gives those States back. */
  lemma StatesRoundTrip(states: seq<State>)
    ensures ParseStates(StateValues(states)) == Success(states)
  {
    var vs := StateValues(states);
    forall i | 0 <= i < |states| ensures ParseState(vs[i]) == Success(states[i]) {
      StateRoundTrip(states[i]);
    }
    var r := ParseStates(vs);
    assert r.Success?;
    assert forall i :: 0 <= i < |states| ==> r.value[i] == states[i];
    assert r.value == states;
  }

  /** `History.parse_obj({"states": states})` for one element of the
      history endpoint's reply: a list whose items all parse as States of
      one entity. */
  function ParseHistory(v: Value): (r: Result<History, Error>)
    ensures !v.VList? ==> r.Failure? && r.error.ValueError?
    ensures v.VList? ==> (r.Success? <==> ParseStates(v.items).Success? && SharesOneId(ParseStates(v.items).value))
    ensures v.VList? && ParseStates(v.items).Failure? ==> r == Failure(ParseStates(v.items).error)
    ensures r.Success? ==> v.VList? && ParseStates(v.items) == Success(r.value.states) && SharesOneId(r.value.states)
  {
    if !v.VList? then Failure(ValueError("states must be a list"))
    else
      var states :- ParseStates(v.items);
      NewHistory(states)
  }

  /** The JSON of a History's States parses back to that History. */
  lemma HistoryRoundTrip(h: History)
    requires SharesOneId(h.states)
    ensures ParseHistory(VList(StateValues(h.states))) == Success(h)
  {
    StatesRoundTrip(h.states);
  }
}
