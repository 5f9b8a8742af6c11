/** The owner's pet list: fetching, a two-step delete confirmation whose
    confirmed delete patches the local list, and a refetch after a pet is
    created. */
module PetListing {
  import opened JsValues
  import opened Domain

  /** `pets.filter((pet) => pet.id !== id)`. */
  function Without(pets: seq<Pet>, id: Scalar): (r: seq<Pet>)
    ensures forall p :: p in r <==> p in pets && p.id != id
    ensures |r| <= |pets|
  {
    if pets == [] then []
    else (if pets[0].id != id then [pets[0]] else []) + Without(pets[1..], id)
  }

  /** The filter works element by element, so it keeps the order of what
      it keeps. */
  lemma {:induction false} WithoutConcat(a: seq<Pet>, b: seq<Pet>, id: Scalar)
    ensures Without(a + b, id) == Without(a, id) + Without(b, id)
  {
    if a == [] {
      assert a + b == b;
    } else {
      assert (a + b)[1..] == a[1..] + b;
      WithoutConcat(a[1..], b, id);
    }
  }

  /** A list with no pet of that id comes back unchanged. */
  lemma {:induction false} WithoutAbsent(pets: seq<Pet>, id: Scalar)
    requires forall i :: 0 <= i < |pets| ==> pets[i].id != id
    ensures Without(pets, id) == pets
  {
    if pets != [] {
      WithoutAbsent(pets[1..], id);
    }
  }

  /** Exactly the pets with that id are dropped: the others are counted
      as often as before, the ones with that id not at all. */
  lemma {:induction false} WithoutCounts(pets: seq<Pet>, id: Scalar, p: Pet)
    ensures multiset(Without(pets, id))[p] == if p.id == id then 0 else multiset(pets)[p]
  {
    if pets != [] {
      var head := if pets[0].id != id then [pets[0]] else [];
      var rest := Without(pets[1..], id);
      WithoutCounts(pets[1..], id, p);
      assert pets == [pets[0]] + pets[1..];
      assert multiset(pets) == multiset([pets[0]]) + multiset(pets[1..]);
      assert multiset(Without(pets, id)) == multiset(head) + multiset(rest);
    }
  }

  /** Deleting twice by the same id removes nothing more. */
  lemma {:induction false} WithoutIdempotent(pets: seq<Pet>, id: Scalar)
    ensures Without(Without(pets, id), id) == Without(pets, id)
  {
    var r := Without(pets, id);
    forall i | 0 <= i < |r| ensures r[i].id != id {
      assert r[i] in r;
    }
    WithoutAbsent(r, id);
  }

  /** Two pets, 7 and 42; deleting 42 leaves the list holding only 7. */
  lemma DeleteScenario(a: Pet, b: Pet)
    requires a.id == Num(7) && b.id == Num(42)
    ensures Without([a, b], Num(42)) == [a]
  {
    assert [a, b][1..] == [b];
    assert [b][1..] == [];
  }

  class PetList {
    const owner: Scalar
    var pets: seq<Pet>
    var loading: bool
    var dialogOpen: bool          // the delete confirmation
    var createDialogOpen: bool
    var selectedPet: Option<Pet>
    ghost var log: seq<Event>

    /** The confirmation is open exactly while a pet is selected for
        deletion; its Delete button reads `selectedPet.id`. */
    ghost predicate Valid()
      reads this
    {
      dialogOpen <==> selectedPet.Some?
    }

    constructor (owner: Scalar)
      ensures Valid()
      ensures this.owner == owner
      ensures pets == [] && loading && !dialogOpen && !createDialogOpen && selectedPet == None
      ensures log == []
    {
      this.owner := owner;
      pets := [];
      loading := true;
      dialogOpen := false;
      createDialogOpen := false;
      selectedPet := None;
      log := [];
    }

    /** `fetchPets`: a successful fetch replaces the list wholesale; any
        failure keeps it. Loading ends false either way. */
    method FetchPets(token: Outcome<string>, response: Outcome<seq<Pet>>)
      requires Valid()
      modifies this
      ensures Valid()
      ensures log == old(log)
                + (if token.Ok? then [Request(Get, "/pets/owner/" + JsString(owner), BearerOf(token), map[])] else [])
      ensures pets == if token.Ok? && response.Ok? then response.payload else old(pets)
      ensures !loading
      ensures dialogOpen == old(dialogOpen) && createDialogOpen == old(createDialogOpen)
      ensures selectedPet == old(selectedPet)
    {
      if token.Err? {
        loading := false;
        return;
      }
      log := log + [Request(Get, "/pets/owner/" + JsString(owner), BearerOf(token), map[])];
      if response.Ok? {
        pets := response.payload;
      }
      loading := false;
    }

    /** `handleDeleteClick`: select the pet and ask for confirmation. */
    method HandleDeleteClick(pet: Pet)
      requires Valid()
      modifies this
      ensures Valid()
      ensures selectedPet == Some(pet) && dialogOpen
      ensures pets == old(pets) && loading == old(loading)
      ensures createDialogOpen == old(createDialogOpen) && log == old(log)
    {
      selectedPet := Some(pet);
      dialogOpen := true;
    }

    /** `handleDialogClose` (Cancel): close the confirmation, drop the
        selection. */
    method HandleDialogClose()
      requires Valid()
      modifies this
      ensures Valid()
      ensures !dialogOpen && selectedPet == None
      ensures pets == old(pets) && loading == old(loading)
      ensures createDialogOpen == old(createDialogOpen) && log == old(log)
    {
      dialogOpen := false;
      selectedPet := None;
    }

    /** `handleDeleteConfirm`: delete the selected pet (the request has no
        Authorization header); on success drop every pet with its id from
        the local list, without a refetch, and close. On failure nothing
        but the log changes. */
    method HandleDeleteConfirm(response: Outcome<()>)
      requires Valid() && dialogOpen
      modifies this
      ensures Valid()
      ensures log == old(log) + [Request(Delete, "/pets/" + JsString(old(selectedPet).value.id), None, map[])]
      ensures response.Ok? ==>
                pets == Without(old(pets), old(selectedPet).value.id) && !dialogOpen && selectedPet == None
      ensures response.Err? ==>
                pets == old(pets) && dialogOpen && selectedPet == old(selectedPet)
      ensures loading == old(loading) && createDialogOpen == old(createDialogOpen)
    {
      var id := selectedPet.value.id;
      log := log + [Request(Delete, "/pets/" + JsString(id), None, map[])];
      if response.Err? {
        return;
      }
      pets := Without(pets, id);
      HandleDialogClose();
    }

    /** `handleItemClick`: open the pet's details. */
    method HandleItemClick(petId: Scalar)
      requires Valid()
      modifies this
      ensures Valid()
      ensures log == old(log) + [Navigated("/pet/" + JsString(petId))]
      ensures pets == old(pets) && loading == old(loading) && dialogOpen == old(dialogOpen)
      ensures createDialogOpen == old(createDialogOpen) && selectedPet == old(selectedPet)
    {
      log := log + [Navigated("/pet/" + JsString(petId))];
    }

    method HandleCreateDialogOpen()
      requires Valid()
      modifies this
      ensures Valid()
      ensures createDialogOpen
      ensures pets == old(pets) && loading == old(loading) && dialogOpen == old(dialogOpen)
      ensures selectedPet == old(selectedPet) && log == old(log)
    {
      createDialogOpen := true;
    }

    method HandleCreateDialogClose()
      requires Valid()
      modifies this
      ensures Valid()
      ensures !createDialogOpen
      ensures pets == old(pets) && loading == old(loading) && dialogOpen == old(dialogOpen)
      ensures selectedPet == old(selectedPet) && log == old(log)
    {
      createDialogOpen := false;
    }

    /** `handlePetCreated`: refetch the whole list. */
    method HandlePetCreated(token: Outcome<string>, response: Outcome<seq<Pet>>)
      requires Valid()
      modifies this
      ensures Valid()
      ensures log == old(log)
                + (if token.Ok? then [Request(Get, "/pets/owner/" + JsString(owner), BearerOf(token), map[])] else [])
      ensures pets == if token.Ok? && response.Ok? then response.payload else old(pets)
      ensures !loading
      ensures dialogOpen == old(dialogOpen) && createDialogOpen == old(createDialogOpen)
      ensures selectedPet == old(selectedPet)
    {
      FetchPets(token, response);
    }
  }
}
