/** redux/vocabulary/reducers.ts and actions.ts of the admin UI: the
    vocabulary slice of the store and the actions that drive it. */
module Vocabulary {
  import opened Common

  /** A JavaScript value, as far as the reducer passes values around. */
  datatype Value =
    | Undefined
    | Null
    | Bool(b: bool)
    | Number(n: int)
    | Text(s: string)
    | List(elems: seq<Value>)
    | Object(fields: map<string, Value>)

  /** The three members of `VocabulariesActionTypes` the slice knows, and
      any other action type of the application. */
  datatype ActionType = GetVocabulary | ResponseSuccess | ResponseError | Other(name: string)

  /** `ActionType`: a type and a payload record. */
  datatype Action = Action(actionType: ActionType, payload: map<string, Value>)

  /** `State`; `rest` holds whatever other fields a state object carries,
      which the spread `...state` copies. */
  datatype State = State(data: Value, isLoading: bool, rest: map<string, Value>)

  /** `INITIAL_STATE` */
  const InitialState := State(Null, false, map[])

  /** Property access on a record: a missing field reads as undefined. */
  function Field(payload: map<string, Value>, name: string): Value
  {
    if name in payload then payload[name] else Undefined
  }

  /** `vocabularies(state, action)`; `None` is an omitted state, which the
      default parameter replaces by `INITIAL_STATE`. The state is never
      mutated: every case returns a new value or the old one. */
  function Vocabularies(state: Option<State>, action: Action): (r: State)
    ensures var s := if state.Some? then state.value else InitialState;
      && r.rest == s.rest
      && (action.actionType.GetVocabulary? ==> r.isLoading && r.data == s.data)
      && (action.actionType.ResponseSuccess? ==> !r.isLoading && r.data == Field(action.payload, "data"))
      && (action.actionType.ResponseError? ==> !r.isLoading && r.data == Field(action.payload, "error"))
      && (action.actionType.Other? ==> r == s)
  {
    var s := if state.Some? then state.value else InitialState;
    match action.actionType
    case GetVocabulary => s.(isLoading := true)
    case ResponseSuccess => s.(isLoading := false, data := Field(action.payload, "data"))
    case ResponseError => s.(isLoading := false, data := Field(action.payload, "error"))
    case Other(_) => s
  }

  /** `getAllVocabularies()` */
  function GetAllVocabularies(): (a: Action)
    ensures a.actionType == GetVocabulary && a.payload == map[]
  {
    Action(GetVocabulary, map[])
  }

  /** `getAllVocabulariesResponseSuccess(data)` */
  function GetAllVocabulariesResponseSuccess(data: Value): (a: Action)
    ensures a.actionType == ResponseSuccess && a.payload == map["data" := data]
  {
    Action(ResponseSuccess, map["data" := data])
  }

  /** `getAllVocabulariesResponseError(error)`: tagged with the SUCCESS
      type, as the source does. */
  function GetAllVocabulariesResponseError(error: Value): (a: Action)
    ensures a.actionType == ResponseSuccess && a.payload == map["error" := error]
  {
    Action(ResponseSuccess, map["error" := error])
  }

  /** Reducing the action creators' actions: a request sets the loading
      flag and keeps the data; a response clears the flag and stores the
      data; and an error response, tagged as a success, stores undefined,
      so the error never reaches the state. */
  lemma CreatorsThroughReducer(s: State, data: Value, error: Value)
    ensures Vocabularies(Some(s), GetAllVocabularies()) == s.(isLoading := true)
    ensures Vocabularies(Some(s), GetAllVocabulariesResponseSuccess(data)) == s.(isLoading := false, data := data)
    ensures Vocabularies(Some(s), GetAllVocabulariesResponseError(error)) == s.(isLoading := false, data := Undefined)
  {
  }

  /** A request followed by its response leaves the state as it was apart
      from the new data, whatever the loading flag was before. */
  lemma RequestThenResponse(s: State, data: Value)
    ensures Vocabularies(Some(Vocabularies(Some(s), GetAllVocabularies())), GetAllVocabulariesResponseSuccess(data))
            == s.(isLoading := false, data := data)
  {
  }

  /** Reducing a sequence of actions, oldest first. */
  function ReduceAll(s: State, actions: seq<Action>): State
  {
    if |actions| == 0 then s else Vocabularies(Some(ReduceAll(s, actions[..|actions| - 1])), actions[|actions| - 1])
  }

  /** After any sequence of actions, the extra fields are the initial ones,
      and the loading flag is set exactly when the last action the slice
      recognises is a request (or, if there is none, when it was set at the
      start). */
  lemma {:induction false} LoadingFollowsLastRequest(s: State, actions: seq<Action>)
    ensures ReduceAll(s, actions).rest == s.rest
    ensures ReduceAll(s, actions).isLoading <==>
              if forall i :: 0 <= i < |actions| ==> actions[i].actionType.Other? then s.isLoading
              else exists i :: 0 <= i < |actions| && actions[i].actionType.GetVocabulary? &&
                                forall j :: i < j < |actions| ==> actions[j].actionType.Other?
  {
    if |actions| > 0 {
      var init := actions[..|actions| - 1];
      var last := actions[|actions| - 1];
      LoadingFollowsLastRequest(s, init);
      assert forall i :: 0 <= i < |init| ==> init[i] == actions[i];
      if !last.actionType.Other? {
        assert !forall i :: 0 <= i < |actions| ==> actions[i].actionType.Other?;
        if !last.actionType.GetVocabulary? {
          forall i | 0 <= i < |actions| && actions[i].actionType.GetVocabulary?
            ensures !forall j :: i < j < |actions| ==> actions[j].actionType.Other?
          {
            assert i < |actions| - 1;
          }
        }
      }
    }
  }
}
