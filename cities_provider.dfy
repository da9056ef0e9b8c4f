/**
 The cities provider: a store that holds the reducer state and runs the
 operations, each of which dispatches `loading`, awaits its network call and
 then dispatches what that call's outcome warrants. The network is a parameter:
 every operation is given the way its request settled.
 */
module CitiesProvider {
  import opened CitiesState

  class Store<Id(==), Info(==)> {
    /** The reducer state that the provider hands to its consumers. */
    var state: State<Id, Info>
    /** Every action dispatched so far, oldest first. */
    ghost var log: seq<Action<Id, Info>>

    /** The state is always the reducer folded over the dispatched actions. */
    ghost predicate Valid()
      reads this
    {
      Replay(InitialState(), log) == Success(state)
    }

    /**
     Mounting the provider: the reducer starts from the initial state and the
     mount effect loads the list once.
     */
    constructor (mount: Response<seq<City<Id, Info>>>)
      ensures Valid()
      ensures log == FetchCitiesActions(mount)
      ensures !state.isLoading && state.currentCity == None
      ensures mount.Delivered? ==> state.cities == mount.body && state.error == ""
      ensures mount.Failed? ==> state.cities == [] && state.error == LoadErrorMessage
    {
      state := InitialState();
      log := [];
      new;
      FetchCities(mount);
    }

    /** `dispatch(action)`: one reducer step, recorded in the log. */
    method Dispatch(a: Action<Id, Info>)
      requires Valid()
      requires !a.Unknown?
      modifies this
      ensures Valid()
      ensures log == old(log) + [a]
      ensures Reduce(old(state), a) == Success(state)
    {
      var next := Reduce(state, a);
      ReplayAppend(InitialState(), log, [a]);
      ReplaySingle(state, a);
      log := log + [a];
      state := next.value;
    }

    /**
     The mount effect `fetchCities`. The provider does not hand it to its
     consumers: only the constructor calls it, once.
     */
    method FetchCities(response: Response<seq<City<Id, Info>>>)
      requires Valid()
      modifies this
      ensures Valid()
      ensures log == old(log) + FetchCitiesActions(response)
      ensures !state.isLoading && state.currentCity == old(state.currentCity)
      ensures response.Delivered? ==> state.cities == response.body && state.error == old(state.error)
      ensures response.Failed? ==> state.cities == old(state.cities) && state.error == LoadErrorMessage
    {
      Dispatch(Loading);
      match response
      case Delivered(data) => Dispatch(CitiesLoaded(data));
      case Failed => Dispatch(Rejected(LoadErrorMessage));
    }

    /** `getCity(id)`; `id` only names the resource requested. */
    method GetCity(id: Id, response: Response<City<Id, Info>>)
      requires Valid()
      modifies this
      ensures Valid()
      ensures log == old(log) + GetCityActions(response)
      ensures !state.isLoading && state.cities == old(state.cities)
      ensures response.Delivered? ==> state.currentCity == Some(response.body) && state.error == old(state.error)
      ensures response.Failed? ==> state.currentCity == old(state.currentCity) && state.error == LoadErrorMessage
    {
      Dispatch(Loading);
      match response
      case Delivered(data) => Dispatch(CityLoaded(data));
      case Failed => Dispatch(Rejected(LoadErrorMessage));
    }

    /** `createCity(newCity)`; what is appended is the server's reply, not `newCity`. */
    method CreateCity(newCity: Info, response: Response<City<Id, Info>>)
      requires Valid()
      modifies this
      ensures Valid()
      ensures log == old(log) + CreateCityActions(response)
      ensures !state.isLoading && state.currentCity == old(state.currentCity)
      ensures response.Delivered? ==> state.cities == old(state.cities) + [response.body] && state.error == old(state.error)
      ensures response.Failed? ==> state.cities == old(state.cities) && state.error == LoadErrorMessage
    {
      Dispatch(Loading);
      match response
      case Delivered(data) => Dispatch(CityCreated(data));
      case Failed => Dispatch(Rejected(LoadErrorMessage));
    }

    /**
     `deleteCity(id)`. When the request throws, the provider only alerts: no
     further action is dispatched, so the store is left loading.
     */
    method DeleteCity(id: Id, response: Response<()>)
      requires Valid()
      modifies this
      ensures Valid()
      ensures log == old(log) + DeleteCityActions(id, response)
      ensures state.currentCity == old(state.currentCity) && state.error == old(state.error)
      ensures response.Delivered? ==> !state.isLoading && state.cities == RemoveById(old(state.cities), id)
      ensures response.Failed? ==> state.isLoading && state.cities == old(state.cities)
    {
      Dispatch(Loading);
      match response
      case Delivered(_) => Dispatch(CityDeleted(id));
      case Failed =>
    }
  }
}
