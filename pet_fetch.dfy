/** Loading one pet by id: the `usePetData` hook and the details screen,
    which repeats the same fetch inline and then picks between a spinner,
    "Pet not found" and the details. */
module PetFetch {
  import opened JsValues
  import opened Domain

  /** What the details screen shows. A response body arrives as
      `Option<Pet>`: `None` is a falsy body (`null`, `""`), which both
      fetches store as it is. */
  datatype Screen = Spinner | NotFound | Details(pet: Pet)

  /** The path both fetches request; neither sends an Authorization
      header. */
  function PetPath(id: Scalar): string
  {
    "/pets/" + JsString(id)
  }

  /** The rendering decision of the details screen: the spinner exactly
      while loading, "Pet not found" exactly when loading is over and there
      is no pet, and otherwise the details of the pet held. */
  function ScreenFor(loading: bool, pet: Option<Pet>): (s: Screen)
    ensures s.Spinner? <==> loading
    ensures s.NotFound? <==> !loading && pet.None?
    ensures s.Details? ==> pet == Some(s.pet)
  {
    if loading then Spinner
    else if pet.None? then NotFound
    else Details(pet.value)
  }

  /** `usePetData(id)`: a pet, a loading flag, and the setter it hands
      out. */
  class PetDataHook {
    var id: Scalar
    var pet: Option<Pet>
    var loading: bool
    ghost var log: seq<Event>

    constructor (id: Scalar)
      ensures this.id == id && pet == None && loading && log == []
    {
      this.id := id;
      pet := None;
      loading := true;
      log := [];
    }

    /** `getPet`: a successful fetch stores the body, even a falsy one; a
        failed one keeps whatever was there; loading ends false either
        way. */
    method GetPet(response: Outcome<Option<Pet>>)
      modifies this
      ensures log == old(log) + [Request(Get, PetPath(id), None, map[])]
      ensures pet == if response.Ok? then response.payload else old(pet)
      ensures !loading
      ensures id == old(id)
    {
      log := log + [Request(Get, PetPath(id), None, map[])];
      if response.Ok? {
        pet := response.payload;
      }
      loading := false;
    }

    /** The effect is keyed on `id`: a new id fetches again. Loading is not
        set back to true, and the previous pet stays until the new one
        arrives. */
    method IdChanged(newId: Scalar, response: Outcome<Option<Pet>>)
      modifies this
      ensures id == newId
      ensures log == old(log) + [Request(Get, PetPath(newId), None, map[])]
      ensures pet == if response.Ok? then response.payload else old(pet)
      ensures !loading
    {
      id := newId;
      GetPet(response);
    }

    /** The `setPet` the hook returns: replaces the pet wholesale. */
    method SetPet(p: Option<Pet>)
      modifies this
      ensures pet == p
      ensures id == old(id) && loading == old(loading) && log == old(log)
    {
      pet := p;
    }
  }

  /** The details screen, on the route `/pet/:id`. */
  class PetDetailsScreen {
    var id: Scalar
    var pet: Option<Pet>
    var loading: bool
    ghost var log: seq<Event>

    constructor (id: Scalar)
      ensures this.id == id && pet == None && loading && log == []
    {
      this.id := id;
      pet := None;
      loading := true;
      log := [];
    }

    /** The screen's inline `fetchPet`: a successful fetch stores the body,
        so a falsy body leads to "Pet not found"; a failed one keeps the
        previous pet. */
    method FetchPet(response: Outcome<Option<Pet>>)
      modifies this
      ensures log == old(log) + [Request(Get, PetPath(id), None, map[])]
      ensures pet == if response.Ok? then response.payload else old(pet)
      ensures !loading
      ensures id == old(id)
    {
      log := log + [Request(Get, PetPath(id), None, map[])];
      if response.Ok? {
        pet := response.payload;
      }
      loading := false;
    }

    /** The route parameter changed: the effect fetches again, with no
        spinner in between. */
    method RouteChanged(newId: Scalar, response: Outcome<Option<Pet>>)
      modifies this
      ensures id == newId
      ensures log == old(log) + [Request(Get, PetPath(newId), None, map[])]
      ensures pet == if response.Ok? then response.payload else old(pet)
      ensures !loading
    {
      id := newId;
      FetchPet(response);
    }

    /** What the screen renders now. */
    function View(): (s: Screen)
      reads this
      ensures s.Spinner? <==> loading
      ensures s.NotFound? <==> !loading && pet.None?
      ensures s.Details? ==> pet == Some(s.pet)
    {
      ScreenFor(loading, pet)
    }
  }

  /** Opening the screen: a spinner first, then the fetched pet's details,
      or "Pet not found" when the fetch fails or the body is falsy. */
  method FirstVisit(id: Scalar, response: Outcome<Option<Pet>>) returns (before: Screen, after: Screen)
    ensures before == Spinner
    ensures response.Ok? && response.payload.Some? ==> after == Details(response.payload.value)
    ensures response.Err? || response.payload.None? ==> after == NotFound
  {
    var screen := new PetDetailsScreen(id);
    before := screen.View();
    screen.FetchPet(response);
    after := screen.View();
  }

  /** Moving from one pet's route to another's whose fetch fails keeps the
      first pet's details on screen. */
  method FailedRouteChange(id1: Scalar, p: Pet, id2: Scalar) returns (s: Screen)
    ensures s == Details(p)
  {
    var screen := new PetDetailsScreen(id1);
    screen.FetchPet(Ok(Some(p)));
    screen.RouteChanged(id2, Err);
    s := screen.View();
  }

  /** The hook goes through the same states: a successful fetch yields
      the body, a failed one leaves the pet absent, and a setter call
      replaces it. */
  method HookLifecycle(id: Scalar, response: Outcome<Option<Pet>>, replacement: Option<Pet>)
    returns (fetched: Option<Pet>, loadingAfter: bool, replaced: Option<Pet>)
    ensures response.Ok? ==> fetched == response.payload
    ensures response.Err? ==> fetched == None
    ensures !loadingAfter
    ensures replaced == replacement
  {
    var hook := new PetDataHook(id);
    hook.GetPet(response);
    fetched, loadingAfter := hook.pet, hook.loading;
    hook.SetPet(replacement);
    replaced := hook.pet;
  }
}
