/** The pet-creation form: a draft pet, the required-field check that
    guards submission, the submission itself, and the merge of a horse
    imported from the registry into the draft. */
module PetForm {
  import opened JsValues
  import opened Registry
  import opened Domain

  type Draft = map<string, Scalar>

  /** The fields `validateFields` checks, in the order it checks them. */
  const Required: set<string> := {"name", "species", "gender"}

  /** The fields an imported horse overwrites. */
  const Imported: set<string> := {"name", "species", "breed", "gender", "color", "microchipNumber", "dateOfBirth"}

  /** `initialPetState`: every field empty except `owner`, the prop. */
  function InitialPet(owner: Scalar): (p: Draft)
    ensures p.Keys == {"name", "species", "breed", "gender", "weight", "color", "owner", "microchipNumber", "dateOfBirth"}
    ensures p["owner"] == owner
    ensures forall k :: k in p && k != "owner" ==> p[k] == Text("")
  {
    map["name" := Text(""), "species" := Text(""), "breed" := Text(""), "gender" := Text(""),
        "weight" := Text(""), "color" := Text(""), "owner" := owner,
        "microchipNumber" := Text(""), "dateOfBirth" := Text("")]
  }

  function RequiredMessage(field: string): string
  {
    if field == "name" then "Name is required"
    else if field == "species" then "Species is required"
    else "Gender is required"
  }

  /** `validateFields`: one message for each of name, species and gender
      whose value is falsy. No other field is looked at, and any truthy
      gender passes. */
  function ValidateFields(p: Draft): (errors: map<string, string>)
    ensures errors.Keys == set f | f in Required && !Truthy(Prop(p, f))
    ensures forall f :: f in errors ==> errors[f] == RequiredMessage(f)
  {
    var e0: map<string, string> := map[];
    var e1 := if !Truthy(Prop(p, "name")) then e0["name" := "Name is required"] else e0;
    var e2 := if !Truthy(Prop(p, "species")) then e1["species" := "Species is required"] else e1;
    if !Truthy(Prop(p, "gender")) then e2["gender" := "Gender is required"] else e2
  }

  /** A draft passes validation exactly when name, species and gender are
      all truthy. */
  lemma ValidIffRequiredPresent(p: Draft)
    ensures ValidateFields(p) == map[] <==>
              Truthy(Prop(p, "name")) && Truthy(Prop(p, "species")) && Truthy(Prop(p, "gender"))
  {
    var e := ValidateFields(p);
    if e == map[] {
      forall f | f in Required ensures Truthy(Prop(p, f)) {
        assert f !in e.Keys;
      }
    } else {
      var f :| f in e;
    }
  }

  /** Editing a field that is not required never changes the verdict. */
  lemma ValidationIgnoresOtherFields(p: Draft, k: string, v: Scalar)
    requires k !in Required
    ensures ValidateFields(p[k := v]) == ValidateFields(p)
  {
    var a, b := ValidateFields(p[k := v]), ValidateFields(p);
    forall f | f in Required ensures Prop(p[k := v], f) == Prop(p, f) {
    }
    assert a.Keys == b.Keys;
  }

  /** The initial draft fails on all three required fields. */
  lemma InitialPetFailsValidation(owner: Scalar)
    ensures ValidateFields(InitialPet(owner)).Keys == Required
  {
    var p := InitialPet(owner);
    assert !Truthy(Prop(p, "name")) && !Truthy(Prop(p, "species")) && !Truthy(Prop(p, "gender"));
  }

  /** The date of birth `handleHorseSelected` builds: the date template
      over birth year, month and day, without the falsy guard that the
      import dialog's `formatDate` has. */
  function ImportedDateOfBirth(h: Horse): string
  {
    DateString(h.szuletesiEv, h.szuletesiHo, h.szuletesiNap)
  }

  /** The value `handleHorseSelected` writes into one imported field. */
  function ImportedField(h: Horse, k: string): Scalar
  {
    if k == "name" then h.nev
    else if k == "species" then Text("Horse")
    else if k == "breed" then h.fajtaHu
    else if k == "gender" then h.nemHu
    else if k == "color" then h.szinHu
    else if k == "microchipNumber" then h.mikrochip
    else Text(ImportedDateOfBirth(h))
  }

  /** `handleHorseSelected`'s update: the seven imported fields are
      overwritten (species with "Horse", gender with the registry's word
      unchanged), every other field of the draft is kept. */
  function MergeHorse(p: Draft, h: Horse): (r: Draft)
    ensures r.Keys == p.Keys + Imported
    ensures forall k :: k in p && k !in Imported ==> r[k] == p[k]
    ensures r["name"] == h.nev && r["species"] == Text("Horse") && r["breed"] == h.fajtaHu
    ensures r["gender"] == h.nemHu && r["color"] == h.szinHu && r["microchipNumber"] == h.mikrochip
    ensures r["dateOfBirth"] == Text(ImportedDateOfBirth(h))
  {
    map k | k in p.Keys + Imported :: if k in Imported then ImportedField(h, k) else p[k]
  }

  /** Importing into a fresh form keeps the owner and the empty weight. */
  lemma ImportKeepsOwnerAndWeight(owner: Scalar, h: Horse)
    ensures var r := MergeHorse(InitialPet(owner), h);
            r["owner"] == owner && r["weight"] == Text("")
  {
    var p := InitialPet(owner);
    assert "owner" in p && "owner" !in Imported;
    assert "weight" in p && "weight" !in Imported;
  }

  /** Importing twice is importing the second horse: the merge depends on
      the draft only through the fields it does not overwrite. */
  lemma ImportTwice(p: Draft, h1: Horse, h2: Horse)
    ensures MergeHorse(MergeHorse(p, h1), h2) == MergeHorse(p, h2)
  {
    var m := MergeHorse(p, h1);
    var a, b := MergeHorse(m, h2), MergeHorse(p, h2);
    assert a.Keys == b.Keys;
    forall k | k in a ensures a[k] == b[k] {
      if k !in Imported {
        assert a[k] == m[k] == p[k] == b[k];
      }
    }
  }

  class CreatePetDialog {
    const owner: Scalar
    var newPet: Draft
    var errors: map<string, string>
    var importDialogOpen: bool
    ghost var log: seq<Event>

    constructor (owner: Scalar)
      ensures this.owner == owner
      ensures newPet == InitialPet(owner) && errors == map[] && !importDialogOpen && log == []
    {
      this.owner := owner;
      newPet := InitialPet(owner);
      errors := map[];
      importDialogOpen := false;
      log := [];
    }

    /** `handleInputChange`: replace one field of the draft. */
    method HandleInputChange(name: string, value: string)
      modifies this
      ensures name in newPet && newPet[name] == Text(value)
      ensures newPet.Keys == old(newPet).Keys + {name}
      ensures forall k :: k in old(newPet) && k != name ==> newPet[k] == old(newPet)[k]
      ensures errors == old(errors) && importDialogOpen == old(importDialogOpen) && log == old(log)
    {
      newPet := newPet[name := Text(value)];
    }

    /** `handleCreatePet`. A draft that fails validation stores the errors
        and sends nothing. Otherwise a token is fetched and the draft
        posted; on success the list is notified, the draft reset, the
        dialog closed and the new pet shown, in that order. On a failure
        the draft is kept and none of that happens. Errors from an
        earlier failed validation are not cleared. */
    method HandleCreatePet(token: Outcome<string>, response: Outcome<Scalar>)
      modifies this
      ensures var errs := ValidateFields(old(newPet));
              errs != map[] ==>
                errors == errs && newPet == old(newPet) && log == old(log)
      ensures ValidateFields(old(newPet)) == map[] ==>
                && errors == old(errors)
                && log == old(log)
                   + (if token.Ok? then [Request(Post, "/pets", BearerOf(token), old(newPet))] else [])
                   + (if token.Ok? && response.Ok?
                      then [PetCreated, Closed, Navigated("/pet/" + JsString(response.payload))]
                      else [])
                && newPet == (if token.Ok? && response.Ok? then InitialPet(owner) else old(newPet))
      ensures importDialogOpen == old(importDialogOpen)
    {
      var errs := ValidateFields(newPet);
      if errs != map[] {
        errors := errs;
        return;
      }
      if token.Err? {
        return;
      }
      log := log + [Request(Post, "/pets", BearerOf(token), newPet)];
      if response.Err? {
        return;
      }
      log := log + [PetCreated];
      ResetForm();
      log := log + [Closed];
      log := log + [Navigated("/pet/" + JsString(response.payload))];
    }

    /** The "Import from MLOSZ" button. */
    method OpenImport()
      modifies this
      ensures importDialogOpen
      ensures newPet == old(newPet) && errors == old(errors) && log == old(log)
    {
      importDialogOpen := true;
    }

    /** The import dialog's `onClose`. */
    method CloseImport()
      modifies this
      ensures !importDialogOpen
      ensures newPet == old(newPet) && errors == old(errors) && log == old(log)
    {
      importDialogOpen := false;
    }

    /** `handleHorseSelected`: merge the horse into the draft and close the
        import dialog. */
    method HandleHorseSelected(h: Horse)
      modifies this
      ensures newPet == MergeHorse(old(newPet), h)
      ensures !importDialogOpen
      ensures errors == old(errors) && log == old(log)
    {
      newPet := MergeHorse(newPet, h);
      importDialogOpen := false;
    }

    /** `resetForm`. */
    method ResetForm()
      modifies this
      ensures newPet == InitialPet(owner)
      ensures errors == old(errors) && importDialogOpen == old(importDialogOpen) && log == old(log)
    {
      newPet := InitialPet(owner);
    }

    /** `handleCloseDialog` (Cancel): discard typed and imported values,
        then close. */
    method HandleCloseDialog()
      modifies this
      ensures newPet == InitialPet(owner)
      ensures log == old(log) + [Closed]
      ensures errors == old(errors) && importDialogOpen == old(importDialogOpen)
    {
      ResetForm();
      log := log + [Closed];
    }
  }
}
