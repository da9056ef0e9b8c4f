/**
 The state machine of the cities store: the four-field store state, the six
 actions the store dispatches, the reducer that maps a state and an action to
 the next state, and the sequences of actions that each store operation
 dispatches once its network call has settled one way or the other.
 */
module CitiesState {

  /** A city as the backend returns it: an identifier plus fields the store never reads. */
  datatype City<Id, Info> = City(id: Id, info: Info)

  /** The selected city; `None` stands for the empty record the store starts with. */
  datatype Option<T> = None | Some(value: T)

  /** The reducer's outcome: the next state, or the error it throws. */
  datatype Result<T> = Success(value: T) | Failure(error: string)

  /** How a network call settled: with the decoded body, or by throwing (transport or decoding). */
  datatype Response<T> = Delivered(body: T) | Failed

  datatype State<Id, Info> = State(
    cities: seq<City<Id, Info>>,
    isLoading: bool,
    currentCity: Option<City<Id, Info>>,
    error: string)

  /** The six action kinds the reducer handles, and every other action type as `Unknown`. */
  datatype Action<Id, Info> =
    | Loading                                   // "loading"
    | CitiesLoaded(loaded: seq<City<Id, Info>>) // "cities/loaded"
    | CityLoaded(selected: City<Id, Info>)      // "city/loaded"
    | CityCreated(created: City<Id, Info>)      // "cities/created"
    | CityDeleted(deletedId: Id)                // "cities/deleted"
    | Rejected(message: string)                 // "rejected"
    | Unknown(kind: string)                     // any other action type

  const UnknownActionMessage := "Unknown action type"

  /** The payload of every `rejected` action the store dispatches. */
  const LoadErrorMessage := "There was an error loading data..."

  /** `initialState`: no cities, not loading, nothing selected, no error. */
  function InitialState<Id, Info>(): (r: State<Id, Info>)
    ensures |r.cities| == 0 && !r.isLoading && r.currentCity.None? && |r.error| == 0
  {
    State([], false, None, "")
  }

  // ---------------------------------------------------------------------------
  // Removing cities by identifier (the `filter` of "cities/deleted")
  // ---------------------------------------------------------------------------

  /** True when `r` can be obtained from `s` by deleting some of its elements. */
  predicate IsSubsequence<T(==)>(r: seq<T>, s: seq<T>)
    decreases |s|
  {
    if r == [] then true
    else if s == [] then false
    else (r[0] == s[0] && IsSubsequence(r[1..], s[1..])) || IsSubsequence(r, s[1..])
  }

  /** The number of cities in `s` whose identifier is `id`. */
  function CountId<Id(==), Info>(s: seq<City<Id, Info>>, id: Id): (n: nat)
    ensures n <= |s|
    ensures n == 0 <==> forall i :: 0 <= i < |s| ==> s[i].id != id
  {
    if s == [] then 0
    else (if s[0].id == id then 1 else 0) + CountId(s[1..], id)
  }

  /**
   The reference description of removing `id` from `s`: `r` keeps the cities of
   `s` in their relative order, holds no city with identifier `id`, and drops
   exactly the cities that carry it.
   */
  ghost predicate IsRemovalOf<Id, Info>(r: seq<City<Id, Info>>, s: seq<City<Id, Info>>, id: Id)
  {
    && IsSubsequence(r, s)
    && (forall i :: 0 <= i < |r| ==> r[i].id != id)
    && |r| + CountId(s, id) == |s|
  }

  /** `s.filter(city => city.id !== id)`. */
  function RemoveById<Id(==), Info>(s: seq<City<Id, Info>>, id: Id): (r: seq<City<Id, Info>>)
    ensures IsRemovalOf(r, s, id)
    ensures forall i :: 0 <= i < |r| ==> r[i] in s
    ensures forall i :: 0 <= i < |s| && s[i].id != id ==> s[i] in r
    ensures |r| <= |s|
    ensures (forall i :: 0 <= i < |s| ==> s[i].id != id) ==> r == s
  {
    if s == [] then []
    else if s[0].id == id then RemoveById(s[1..], id)
    else [s[0]] + RemoveById(s[1..], id)
  }

  /** A subsequence free of `id` cannot be longer than what remains once `id` is removed. */
  lemma {:induction false} SubsequenceAvoidingBound<Id, Info>(r: seq<City<Id, Info>>, s: seq<City<Id, Info>>, id: Id)
    requires IsSubsequence(r, s)
    requires forall i :: 0 <= i < |r| ==> r[i].id != id
    ensures |r| + CountId(s, id) <= |s|
    decreases |s|
  {
    if r == [] {
    } else if s[0].id == id {
      assert r[0] != s[0];
      SubsequenceAvoidingBound(r, s[1..], id);
    } else if r[0] == s[0] && IsSubsequence(r[1..], s[1..]) {
      SubsequenceAvoidingBound(r[1..], s[1..], id);
    } else {
      SubsequenceAvoidingBound(r, s[1..], id);
    }
  }

  /** The reference description determines the result: `RemoveById` is the only removal. */
  lemma {:induction false} RemovalIsUnique<Id, Info>(r: seq<City<Id, Info>>, s: seq<City<Id, Info>>, id: Id)
    requires IsRemovalOf(r, s, id)
    ensures r == RemoveById(s, id)
    decreases |s|, 1
  {
    if s == [] {
    } else if s[0].id == id {
      RemovalSkipsHead(r, s, id);
    } else {
      RemovalKeepsHead(r, s, id);
    }
  }

  /** A removal of `s` whose first city carries `id` is a removal of the rest of `s`. */
  lemma {:induction false} RemovalSkipsHead<Id, Info>(r: seq<City<Id, Info>>, s: seq<City<Id, Info>>, id: Id)
    requires IsRemovalOf(r, s, id)
    requires s != [] && s[0].id == id
    ensures r == RemoveById(s, id)
    decreases |s|, 0
  {
    var tail := s[1..];
    assert CountId(s, id) == 1 + CountId(tail, id);
    assert IsSubsequence(r, tail) by {
      if r != [] {
        assert r[0] != s[0];
      }
    }
    RemovalIsUnique(r, tail, id);
  }

  /** A removal of `s` whose first city has another id starts with that city. */
  lemma {:induction false} RemovalKeepsHead<Id, Info>(r: seq<City<Id, Info>>, s: seq<City<Id, Info>>, id: Id)
    requires IsRemovalOf(r, s, id)
    requires s != [] && s[0].id != id
    ensures r == RemoveById(s, id)
    decreases |s|, 0
  {
    var tail := s[1..];
    assert CountId(s, id) == CountId(tail, id);
    if IsSubsequence(r, tail) {
      SubsequenceAvoidingBound(r, tail, id);
      assert false;
    }
    assert r[0] == s[0] && IsSubsequence(r[1..], tail);
    assert IsRemovalOf(r[1..], tail, id);
    RemovalIsUnique(r[1..], tail, id);
    assert RemoveById(s, id) == [s[0]] + RemoveById(tail, id);
    assert r == [s[0]] + r[1..];
  }

  /** Removing the same identifier a second time changes nothing. */
  lemma RemoveByIdIdempotent<Id, Info>(s: seq<City<Id, Info>>, id: Id)
    ensures RemoveById(RemoveById(s, id), id) == RemoveById(s, id)
  {
  }

  // ---------------------------------------------------------------------------
  // The reducer
  // ---------------------------------------------------------------------------

  /** `reducer(state, action)`: the next state, or the error thrown for an unknown action type. */
  function Reduce<Id(==), Info>(s: State<Id, Info>, a: Action<Id, Info>): (r: Result<State<Id, Info>>)
    ensures r.Failure? <==> a.Unknown?
    ensures r.Failure? ==> r.error == UnknownActionMessage
    // `loading` raises the flag and every other action lowers it
    ensures r.Success? ==> r.value.isLoading == a.Loading?
    // each field changes only under the actions that address it
    ensures r.Success? && !(a.CitiesLoaded? || a.CityCreated? || a.CityDeleted?) ==> r.value.cities == s.cities
    ensures r.Success? && !a.CityLoaded? ==> r.value.currentCity == s.currentCity
    ensures r.Success? && !a.Rejected? ==> r.value.error == s.error
  {
    match a
    case Loading => Success(s.(isLoading := true))
    case CitiesLoaded(cities) => Success(s.(isLoading := false, cities := cities))
    case CityLoaded(city) => Success(s.(isLoading := false, currentCity := Some(city)))
    case CityCreated(city) => Success(s.(isLoading := false, cities := s.cities + [city]))
    case CityDeleted(id) => Success(s.(isLoading := false, cities := RemoveById(s.cities, id)))
    case Rejected(message) => Success(s.(isLoading := false, error := message))
    case Unknown(_) => Failure(UnknownActionMessage)
  }

  lemma LoadingSetsFlag<Id, Info>(s: State<Id, Info>)
    ensures Reduce(s, Loading).Success?
    ensures var t := Reduce(s, Loading).value;
      t.isLoading && t.cities == s.cities && t.currentCity == s.currentCity && t.error == s.error
  {
  }

  /** The payload replaces the list outright; a stale error is kept. */
  lemma CitiesLoadedReplaces<Id, Info>(s: State<Id, Info>, cities: seq<City<Id, Info>>)
    ensures Reduce(s, CitiesLoaded(cities)).Success?
    ensures var t := Reduce(s, CitiesLoaded(cities)).value;
      t.cities == cities && !t.isLoading && t.currentCity == s.currentCity && t.error == s.error
  {
  }

  lemma CityLoadedSelects<Id, Info>(s: State<Id, Info>, city: City<Id, Info>)
    ensures Reduce(s, CityLoaded(city)).Success?
    ensures var t := Reduce(s, CityLoaded(city)).value;
      t.currentCity == Some(city) && !t.isLoading && t.cities == s.cities && t.error == s.error
  {
  }

  /** The payload goes at the end; the old list is a prefix of the new one. */
  lemma CityCreatedAppends<Id, Info>(s: State<Id, Info>, city: City<Id, Info>)
    ensures Reduce(s, CityCreated(city)).Success?
    ensures var t := Reduce(s, CityCreated(city)).value;
      && |t.cities| == |s.cities| + 1
      && t.cities[..|s.cities|] == s.cities
      && t.cities[|s.cities|] == city
      && !t.isLoading && t.currentCity == s.currentCity && t.error == s.error
  {
  }

  /**
   Deleting `id` leaves exactly the other cities, in their order; the selected
   city stays selected even when it is the one deleted.
   */
  lemma CityDeletedRemoves<Id, Info>(s: State<Id, Info>, id: Id)
    ensures Reduce(s, CityDeleted(id)).Success?
    ensures var t := Reduce(s, CityDeleted(id)).value;
      && IsRemovalOf(t.cities, s.cities, id)
      && (forall c :: c in t.cities <==> c in s.cities && c.id != id)
      && |t.cities| <= |s.cities|
      && ((forall i :: 0 <= i < |s.cities| ==> s.cities[i].id != id) ==> t.cities == s.cities)
      && !t.isLoading && t.currentCity == s.currentCity && t.error == s.error
  {
  }

  lemma CityDeletedIdempotent<Id, Info>(s: State<Id, Info>, id: Id)
    ensures Reduce(s, CityDeleted(id)).Success?
    ensures var t := Reduce(s, CityDeleted(id)).value;
      Reduce(t, CityDeleted(id)) == Success(t)
  {
  }

  lemma RejectedRecordsError<Id, Info>(s: State<Id, Info>, message: string)
    ensures Reduce(s, Rejected(message)).Success?
    ensures var t := Reduce(s, Rejected(message)).value;
      t.error == message && !t.isLoading && t.cities == s.cities && t.currentCity == s.currentCity
  {
  }

  lemma UnknownActionFails<Id, Info>(s: State<Id, Info>, kind: string)
    ensures Reduce(s, Unknown(kind)) == Failure(UnknownActionMessage)
  {
  }

  // ---------------------------------------------------------------------------
  // Dispatching a sequence of actions
  // ---------------------------------------------------------------------------

  /** The state after dispatching `actions` in order from `s`; the first unknown action aborts. */
  function Replay<Id(==), Info>(s: State<Id, Info>, actions: seq<Action<Id, Info>>): (r: Result<State<Id, Info>>)
    ensures r.Success? <==> forall i :: 0 <= i < |actions| ==> !actions[i].Unknown?
    decreases |actions|
  {
    if |actions| == 0 then Success(s)
    else match Reduce(s, actions[0])
      case Failure(e) => Failure(e)
      case Success(t) => Replay(t, actions[1..])
  }

  /** Dispatching one action is one reducer step. */
  lemma ReplaySingle<Id, Info>(s: State<Id, Info>, a: Action<Id, Info>)
    ensures Replay(s, [a]) == Reduce(s, a)
  {
  }

  /** Dispatching two actions is two reducer steps, the second from the first one's state. */
  lemma ReplayPair<Id, Info>(s: State<Id, Info>, a: Action<Id, Info>, b: Action<Id, Info>)
    ensures Replay(s, [a, b]) == match Reduce(s, a)
      case Failure(e) => Failure(e)
      case Success(t) => Reduce(t, b)
  {
    assert [a, b][0] == a;
    assert [a, b][1..] == [b];
    match Reduce(s, a)
    case Failure(e) =>
    case Success(t) => ReplaySingle(t, b);
  }

  /** Dispatching `a` and then `b` is dispatching `b` from wherever `a` left the store. */
  lemma {:induction false} ReplayAppend<Id, Info>(s: State<Id, Info>, a: seq<Action<Id, Info>>, b: seq<Action<Id, Info>>)
    ensures Replay(s, a + b) == match Replay(s, a)
      case Failure(e) => Failure(e)
      case Success(t) => Replay(t, b)
    decreases |a|
  {
    if a == [] {
      assert a + b == b;
    } else {
      assert (a + b)[0] == a[0];
      assert (a + b)[1..] == a[1..] + b;
      match Reduce(s, a[0])
      case Failure(e) =>
      case Success(t) => ReplayAppend(t, a[1..], b);
    }
  }

  // ---------------------------------------------------------------------------
  // What each store operation dispatches
  // ---------------------------------------------------------------------------

  /** `fetchCities`: `loading`, then the list or the load error. */
  function FetchCitiesActions<Id, Info>(response: Response<seq<City<Id, Info>>>): (r: seq<Action<Id, Info>>)
    ensures |r| == 2 && r[0] == Loading
    ensures forall i :: 0 <= i < |r| ==> !r[i].Unknown?
    ensures r[1].CitiesLoaded? <==> response.Delivered?
    ensures r[1].Rejected? <==> response.Failed?
    ensures response.Delivered? ==> r[1].loaded == response.body
    ensures response.Failed? ==> r[1].message == LoadErrorMessage
  {
    [Loading, match response
              case Delivered(data) => CitiesLoaded(data)
              case Failed => Rejected(LoadErrorMessage)]
  }

  /** `getCity(id)`: `loading`, then the city or the load error. */
  function GetCityActions<Id, Info>(response: Response<City<Id, Info>>): (r: seq<Action<Id, Info>>)
    ensures |r| == 2 && r[0] == Loading
    ensures forall i :: 0 <= i < |r| ==> !r[i].Unknown?
    ensures r[1].CityLoaded? <==> response.Delivered?
    ensures r[1].Rejected? <==> response.Failed?
    ensures response.Delivered? ==> r[1].selected == response.body
    ensures response.Failed? ==> r[1].message == LoadErrorMessage
  {
    [Loading, match response
              case Delivered(data) => CityLoaded(data)
              case Failed => Rejected(LoadErrorMessage)]
  }

  /** `createCity(newCity)`: `loading`, then the city the server returned or the load error. */
  function CreateCityActions<Id, Info>(response: Response<City<Id, Info>>): (r: seq<Action<Id, Info>>)
    ensures |r| == 2 && r[0] == Loading
    ensures forall i :: 0 <= i < |r| ==> !r[i].Unknown?
    ensures r[1].CityCreated? <==> response.Delivered?
    ensures r[1].Rejected? <==> response.Failed?
    ensures response.Delivered? ==> r[1].created == response.body
    ensures response.Failed? ==> r[1].message == LoadErrorMessage
  {
    [Loading, match response
              case Delivered(data) => CityCreated(data)
              case Failed => Rejected(LoadErrorMessage)]
  }

  /** `deleteCity(id)`: `loading`, then the deletion, or nothing at all when the request throws. */
  function DeleteCityActions<Id, Info>(id: Id, response: Response<()>): (r: seq<Action<Id, Info>>)
    ensures 0 < |r| && r[0] == Loading
    ensures |r| == 2 <==> response.Delivered?
    ensures |r| == 1 <==> response.Failed?
    ensures forall i :: 0 < i < |r| ==> r[i] == CityDeleted(id)
    // a failed deletion never reaches the error field
    ensures forall i :: 0 <= i < |r| ==> !r[i].Rejected? && !r[i].Unknown?
  {
    [Loading] + match response
                case Delivered(_) => [CityDeleted(id)]
                case Failed => []
  }

  lemma FetchCitiesOutcome<Id, Info>(s: State<Id, Info>, response: Response<seq<City<Id, Info>>>)
    ensures Replay(s, FetchCitiesActions(response)).Success?
    ensures var t := Replay(s, FetchCitiesActions(response)).value;
      && !t.isLoading && t.currentCity == s.currentCity
      && (response.Delivered? ==> t.cities == response.body && t.error == s.error)
      && (response.Failed? ==> t.cities == s.cities && t.error == LoadErrorMessage)
  {
    var acts := FetchCitiesActions(response);
    ReplayPair(s, acts[0], acts[1]);
  }

  lemma GetCityOutcome<Id, Info>(s: State<Id, Info>, response: Response<City<Id, Info>>)
    ensures Replay(s, GetCityActions(response)).Success?
    ensures var t := Replay(s, GetCityActions(response)).value;
      && !t.isLoading && t.cities == s.cities
      && (response.Delivered? ==> t.currentCity == Some(response.body) && t.error == s.error)
      && (response.Failed? ==> t.currentCity == s.currentCity && t.error == LoadErrorMessage)
  {
    var acts := GetCityActions(response);
    ReplayPair(s, acts[0], acts[1]);
  }

  /** What is appended is the server's reply, not the city that was sent. */
  lemma CreateCityOutcome<Id, Info>(s: State<Id, Info>, response: Response<City<Id, Info>>)
    ensures Replay(s, CreateCityActions(response)).Success?
    ensures var t := Replay(s, CreateCityActions(response)).value;
      && !t.isLoading && t.currentCity == s.currentCity
      && (response.Delivered? ==> t.cities == s.cities + [response.body] && t.error == s.error)
      && (response.Failed? ==> t.cities == s.cities && t.error == LoadErrorMessage)
  {
    var acts := CreateCityActions(response);
    ReplayPair(s, acts[0], acts[1]);
  }

  /** A failed deletion leaves the store loading, with its list and error as they were. */
  lemma DeleteCityOutcome<Id, Info>(s: State<Id, Info>, id: Id, response: Response<()>)
    ensures Replay(s, DeleteCityActions(id, response)).Success?
    ensures var t := Replay(s, DeleteCityActions(id, response)).value;
      && t.currentCity == s.currentCity && t.error == s.error
      && (response.Delivered? ==> !t.isLoading && t.cities == RemoveById(s.cities, id))
      && (response.Failed? ==> t.isLoading && t.cities == s.cities)
  {
    match response
    case Delivered(_) => ReplayPair(s, Loading, CityDeleted(id));
    case Failed =>
      assert DeleteCityActions<Id, Info>(id, response) == [Loading];
      ReplaySingle(s, Loading);
  }

  /** The provider's first fetch, from the initial state. */
  lemma MountOutcome<Id, Info>(response: Response<seq<City<Id, Info>>>)
    ensures Replay(InitialState(), FetchCitiesActions(response)) == Success(
      match response
      case Delivered(data) => State(data, false, None, "")
      case Failed => State([], false, None, LoadErrorMessage))
  {
    FetchCitiesOutcome(InitialState(), response);
  }

  /** Loading the list twice in a row, from a backend that answers the same, is loading it once. */
  lemma FetchCitiesTwice<Id, Info>(s: State<Id, Info>, response: Response<seq<City<Id, Info>>>)
    ensures Replay(s, FetchCitiesActions(response) + FetchCitiesActions(response))
         == Replay(s, FetchCitiesActions(response))
  {
    ReplayAppend(s, FetchCitiesActions(response), FetchCitiesActions(response));
    FetchCitiesOutcome(s, response);
    var t := Replay(s, FetchCitiesActions(response)).value;
    FetchCitiesOutcome(t, response);
  }

  /** No successful load clears an earlier error: it stays until the next failure overwrites it. */
  lemma StaleErrorPersists<Id, Info>(s: State<Id, Info>, data: seq<City<Id, Info>>)
    ensures var r := Replay(s, FetchCitiesActions(Failed) + FetchCitiesActions(Delivered(data)));
      r.Success? && r.value.cities == data && r.value.error == LoadErrorMessage
  {
    ReplayAppend(s, FetchCitiesActions(Failed), FetchCitiesActions(Delivered(data)));
    FetchCitiesOutcome(s, Failed);
    var t := Replay(s, FetchCitiesActions(Failed)).value;
    FetchCitiesOutcome(t, Delivered(data));
  }
}
