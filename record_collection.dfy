/** The six medical-history widgets (medications, vaccinations, medical
    conditions, allergies, surgeries, check-ups) as one widget
    parameterised by a kind descriptor. The descriptor records everything
    in which the six components differ. */
module RecordCollection {
  import opened JsValues
  import opened Domain

  /** What distinguishes one medical-history widget from another. */
  datatype Kind = Kind(
    fields: seq<string>,     // the draft's keys, in form order
    segment: string,         // the path segment of the record collection
    bearer: bool,            // create and delete first fetch a token and send it
    notifyArg: Option<string>, // the argument passed to `onRecordUpdate`
    closeResetsDraft: bool   // `handleClose` resets the draft
  )

  const Medications := Kind(["medicationName", "dosage", "startDate", "endDate", "instructions"],
                            "medications", true, None, true)
  const Vaccinations := Kind(["vaccineName", "vaccinationDate", "expirationDate", "administeredBy"],
                             "vaccinationRecords", false, None, true)
  const MedicalConditions := Kind(["conditionName", "diagnosisDate", "treatment", "status"],
                                  "medicalConditions", true, None, true)
  const Allergies := Kind(["allergen", "reaction", "dateIdentified"],
                          "allergies", true, Some("allergies"), false)
  const Surgeries := Kind(["surgeryType", "surgeryDate", "outcome"],
                          "surgeries", true, None, true)
  const CheckUps := Kind(["visitDate", "veterinarian", "notes"],
                         "checkUps", false, Some("checkUps"), true)

  /** The draft a widget starts with: every field of the kind, empty. */
  function EmptyDraft(kind: Kind): (d: map<string, string>)
    ensures d.Keys == set f | f in kind.fields
    ensures forall f :: f in d ==> d[f] == ""
  {
    map f | f in kind.fields :: ""
  }

  /** The draft after `handleClose`. */
  function DraftAfterClose(kind: Kind, draft: map<string, string>): map<string, string>
  {
    if kind.closeResetsDraft then EmptyDraft(kind) else draft
  }

  function CreatePath(kind: Kind, petId: Scalar): string
  {
    "/medical/history/" + JsString(petId) + "/" + kind.segment
  }

  function DeletePath(kind: Kind, id: Scalar): string
  {
    "/medical/history/" + kind.segment + "/" + JsString(id)
  }

  /** Whether a create or delete gets as far as its request: a kind that
      sends a bearer token needs the token first. */
  predicate Sent(kind: Kind, token: Outcome<string>)
  {
    !kind.bearer || token.Ok?
  }

  /** The Authorization header of a create or delete request. */
  function AuthOf(kind: Kind, token: Outcome<string>): Option<string>
  {
    if kind.bearer then BearerOf(token) else None
  }

  /** Whether a create or delete succeeded as a whole. */
  predicate Succeeded(kind: Kind, token: Outcome<string>, response: Outcome<()>)
  {
    Sent(kind, token) && response.Ok?
  }

  /** The events of a create or delete: the request, once it can be sent;
      then, only when it succeeded, the parent notification and the close. */
  function MutationEvents(kind: Kind, request: Event, token: Outcome<string>, response: Outcome<()>): seq<Event>
  {
    if !Sent(kind, token) then []
    else if response.Err? then [request]
    else [request, Notify(kind.notifyArg), OverlaysClosed]
  }

  /** The parent is notified at most once, exactly when the mutation
      succeeded, and then after the request and before the close. */
  lemma NotifyOnlyAfterSuccess(kind: Kind, request: Event, token: Outcome<string>, response: Outcome<()>)
    requires request.Request?
    ensures var es := MutationEvents(kind, request, token, response);
            && (Notify(kind.notifyArg) in es <==> Succeeded(kind, token, response))
            && (Succeeded(kind, token, response) ==> es == [request, Notify(kind.notifyArg), OverlaysClosed])
            && (!Succeeded(kind, token, response) ==> OverlaysClosed !in es)
            && (Sent(kind, token) <==> request in es)
  {
  }

  /** Whether the small "add" button beside the title is rendered. */
  predicate FabShown(records: seq<Record>)
  {
    |records| > 0
  }

  /** Whether the large "create" card in place of the grid is rendered. */
  predicate CreateCardShown(records: seq<Record>)
  {
    |records| == 0
  }

  /** Exactly one of the two create entry points is on screen. */
  lemma ExactlyOneCreateEntryPoint(records: seq<Record>)
    ensures FabShown(records) != CreateCardShown(records)
    ensures CreateCardShown(records) <==> records == []
  {
  }

  class RecordList {
    const kind: Kind
    const petId: Scalar
    var selectedRecord: Option<Record>
    var dialogOpen: bool         // the details dialog
    var createDialogOpen: bool   // the create form
    var draft: map<string, string>
    ghost var log: seq<Event>

    /** The details dialog (whose Delete button reads `selectedRecord.id`)
        is open only with a selection, and the draft keeps every field of
        the kind. */
    ghost predicate Valid()
      reads this
    {
      && (dialogOpen ==> selectedRecord.Some?)
      && forall f :: f in kind.fields ==> f in draft
    }

    constructor (kind: Kind, petId: Scalar)
      ensures Valid()
      ensures this.kind == kind && this.petId == petId
      ensures selectedRecord == None && !dialogOpen && !createDialogOpen
      ensures draft == EmptyDraft(kind) && log == []
    {
      this.kind := kind;
      this.petId := petId;
      selectedRecord := None;
      dialogOpen := false;
      createDialogOpen := false;
      draft := EmptyDraft(kind);
      log := [];
    }

    /** `handleRecordClick`: show one record in the details dialog. */
    method HandleRecordClick(record: Record)
      requires Valid()
      modifies this
      ensures Valid()
      ensures selectedRecord == Some(record) && dialogOpen
      ensures createDialogOpen == old(createDialogOpen) && draft == old(draft) && log == old(log)
    {
      selectedRecord := Some(record);
      dialogOpen := true;
    }

    /** `handleClose`: shut both dialogs; five of the six kinds also reset
        the draft. The selection stays. */
    method HandleClose()
      requires Valid()
      modifies this
      ensures Valid()
      ensures !dialogOpen && !createDialogOpen
      ensures draft == DraftAfterClose(kind, old(draft))
      ensures selectedRecord == old(selectedRecord)
      ensures log == old(log) + [OverlaysClosed]
    {
      dialogOpen := false;
      createDialogOpen := false;
      if kind.closeResetsDraft {
        draft := EmptyDraft(kind);
      }
      log := log + [OverlaysClosed];
    }

    /** `handleCreateOpen`, reached from whichever create entry point is shown. */
    method HandleCreateOpen()
      requires Valid()
      modifies this
      ensures Valid()
      ensures createDialogOpen
      ensures dialogOpen == old(dialogOpen) && selectedRecord == old(selectedRecord)
      ensures draft == old(draft) && log == old(log)
    {
      createDialogOpen := true;
    }

    /** `handleCreateChange`: set one draft field, keep every other one. */
    method HandleCreateChange(name: string, value: string)
      requires Valid()
      modifies this
      ensures Valid()
      ensures name in draft && draft[name] == value
      ensures draft.Keys == old(draft).Keys + {name}
      ensures forall k :: k in old(draft) && k != name ==> draft[k] == old(draft)[k]
      ensures dialogOpen == old(dialogOpen) && createDialogOpen == old(createDialogOpen)
      ensures selectedRecord == old(selectedRecord) && log == old(log)
    {
      draft := draft[name := value];
    }

    /** `handleCreate`: post the draft; only if that succeeded, notify the
        parent and close. A failure changes nothing but the log. */
    method HandleCreate(token: Outcome<string>, response: Outcome<()>)
      requires Valid()
      modifies this
      ensures Valid()
      ensures log == old(log) + MutationEvents(kind,
                Request(Post, CreatePath(kind, petId), AuthOf(kind, token), TextBody(old(draft))),
                token, response)
      ensures Succeeded(kind, token, response) ==>
                !dialogOpen && !createDialogOpen && draft == DraftAfterClose(kind, old(draft))
      ensures !Succeeded(kind, token, response) ==>
                dialogOpen == old(dialogOpen) && createDialogOpen == old(createDialogOpen)
                && draft == old(draft)
      ensures selectedRecord == old(selectedRecord)
    {
      if kind.bearer && token.Err? {
        return;
      }
      log := log + [Request(Post, CreatePath(kind, petId), AuthOf(kind, token), TextBody(draft))];
      if response.Err? {
        return;
      }
      log := log + [Notify(kind.notifyArg)];
      HandleClose();
    }

    /** `handleDelete(id)`: delete the record; only if that succeeded,
        notify the parent and close. A failure changes nothing but the log. */
    method HandleDelete(id: Scalar, token: Outcome<string>, response: Outcome<()>)
      requires Valid()
      modifies this
      ensures Valid()
      ensures log == old(log) + MutationEvents(kind,
                Request(Delete, DeletePath(kind, id), AuthOf(kind, token), map[]),
                token, response)
      ensures Succeeded(kind, token, response) ==>
                !dialogOpen && !createDialogOpen && draft == DraftAfterClose(kind, old(draft))
      ensures !Succeeded(kind, token, response) ==>
                dialogOpen == old(dialogOpen) && createDialogOpen == old(createDialogOpen)
                && draft == old(draft)
      ensures selectedRecord == old(selectedRecord)
    {
      if kind.bearer && token.Err? {
        return;
      }
      log := log + [Request(Delete, DeletePath(kind, id), AuthOf(kind, token), map[])];
      if response.Err? {
        return;
      }
      log := log + [Notify(kind.notifyArg)];
      HandleClose();
    }

    /** The details dialog's Delete button: `handleDelete(selectedRecord.id)`.
        The button is on screen only while the dialog is open, and then
        there is a selection to read the id from. */
    method DeleteSelected(token: Outcome<string>, response: Outcome<()>)
      requires Valid() && dialogOpen
      modifies this
      ensures Valid()
      ensures log == old(log) + MutationEvents(kind,
                Request(Delete, DeletePath(kind, old(selectedRecord).value.id), AuthOf(kind, token), map[]),
                token, response)
      ensures Succeeded(kind, token, response) ==>
                !dialogOpen && !createDialogOpen && draft == DraftAfterClose(kind, old(draft))
      ensures !Succeeded(kind, token, response) ==>
                dialogOpen && createDialogOpen == old(createDialogOpen) && draft == old(draft)
      ensures selectedRecord == old(selectedRecord)
    {
      HandleDelete(selectedRecord.value.id, token, response);
    }
  }

  /** MedicationRecordList: five fields, bearer token, no notify argument,
      close resets the draft. */
  lemma MedicationsDescriptor(petId: Scalar, id: Scalar)
    ensures forall f :: f in EmptyDraft(Medications) <==> f in {"medicationName", "dosage", "startDate", "endDate", "instructions"}
    ensures CreatePath(Medications, petId) == "/medical/history/" + JsString(petId) + "/medications"
    ensures DeletePath(Medications, id) == "/medical/history/medications/" + JsString(id)
    ensures Medications.bearer && Medications.notifyArg == None && Medications.closeResetsDraft
  {
    var p, i := JsString(petId), JsString(id);
    assert "/medical/history/" + p + "/" + "medications" == "/medical/history/" + p + "/medications";
    assert "/medical/history/" + "medications" + "/" + i == "/medical/history/medications/" + i;
  }

  /** VaccinationRecordList: four fields, no Authorization header on
      either call, no notify argument, close resets the draft. */
  lemma VaccinationsDescriptor(petId: Scalar, id: Scalar)
    ensures forall f :: f in EmptyDraft(Vaccinations) <==> f in {"vaccineName", "vaccinationDate", "expirationDate", "administeredBy"}
    ensures CreatePath(Vaccinations, petId) == "/medical/history/" + JsString(petId) + "/vaccinationRecords"
    ensures DeletePath(Vaccinations, id) == "/medical/history/vaccinationRecords/" + JsString(id)
    ensures !Vaccinations.bearer
    ensures Vaccinations.notifyArg == None && Vaccinations.closeResetsDraft
  {
    var p, i := JsString(petId), JsString(id);
    assert "/medical/history/" + p + "/" + "vaccinationRecords" == "/medical/history/" + p + "/vaccinationRecords";
    assert "/medical/history/" + "vaccinationRecords" + "/" + i == "/medical/history/vaccinationRecords/" + i;
  }

  /** MedicalConditionList: four fields, bearer token, no notify argument,
      close resets the draft. */
  lemma MedicalConditionsDescriptor(petId: Scalar, id: Scalar)
    ensures forall f :: f in EmptyDraft(MedicalConditions) <==> f in {"conditionName", "diagnosisDate", "treatment", "status"}
    ensures CreatePath(MedicalConditions, petId) == "/medical/history/" + JsString(petId) + "/medicalConditions"
    ensures DeletePath(MedicalConditions, id) == "/medical/history/medicalConditions/" + JsString(id)
    ensures MedicalConditions.bearer && MedicalConditions.notifyArg == None && MedicalConditions.closeResetsDraft
  {
    var p, i := JsString(petId), JsString(id);
    assert "/medical/history/" + p + "/" + "medicalConditions" == "/medical/history/" + p + "/medicalConditions";
    assert "/medical/history/" + "medicalConditions" + "/" + i == "/medical/history/medicalConditions/" + i;
  }

  /** AllergyList: three fields, bearer token, notifies with 'allergies',
      and close keeps the draft, so typed values survive a cancel and a
      successful create. */
  lemma AllergiesDescriptor(petId: Scalar, id: Scalar, draft: map<string, string>)
    ensures forall f :: f in EmptyDraft(Allergies) <==> f in {"allergen", "reaction", "dateIdentified"}
    ensures CreatePath(Allergies, petId) == "/medical/history/" + JsString(petId) + "/allergies"
    ensures DeletePath(Allergies, id) == "/medical/history/allergies/" + JsString(id)
    ensures Allergies.bearer && Allergies.notifyArg == Some("allergies")
    ensures DraftAfterClose(Allergies, draft) == draft
  {
    var p, i := JsString(petId), JsString(id);
    assert "/medical/history/" + p + "/" + "allergies" == "/medical/history/" + p + "/allergies";
    assert "/medical/history/" + "allergies" + "/" + i == "/medical/history/allergies/" + i;
  }

  /** SurgeryList: three fields, bearer token, no notify argument, close
      resets the draft. */
  lemma SurgeriesDescriptor(petId: Scalar, id: Scalar)
    ensures forall f :: f in EmptyDraft(Surgeries) <==> f in {"surgeryType", "surgeryDate", "outcome"}
    ensures CreatePath(Surgeries, petId) == "/medical/history/" + JsString(petId) + "/surgeries"
    ensures DeletePath(Surgeries, id) == "/medical/history/surgeries/" + JsString(id)
    ensures Surgeries.bearer && Surgeries.notifyArg == None && Surgeries.closeResetsDraft
  {
    var p, i := JsString(petId), JsString(id);
    assert "/medical/history/" + p + "/" + "surgeries" == "/medical/history/" + p + "/surgeries";
    assert "/medical/history/" + "surgeries" + "/" + i == "/medical/history/surgeries/" + i;
  }

  /** CheckUpList: three fields, no Authorization header on either call,
      notifies with 'checkUps', close resets the draft. */
  lemma CheckUpsDescriptor(petId: Scalar, id: Scalar)
    ensures forall f :: f in EmptyDraft(CheckUps) <==> f in {"visitDate", "veterinarian", "notes"}
    ensures CreatePath(CheckUps, petId) == "/medical/history/" + JsString(petId) + "/checkUps"
    ensures DeletePath(CheckUps, id) == "/medical/history/checkUps/" + JsString(id)
    ensures !CheckUps.bearer
    ensures CheckUps.notifyArg == Some("checkUps") && CheckUps.closeResetsDraft
  {
    var p, i := JsString(petId), JsString(id);
    assert "/medical/history/" + p + "/" + "checkUps" == "/medical/history/" + p + "/checkUps";
    assert "/medical/history/" + "checkUps" + "/" + i == "/medical/history/checkUps/" + i;
  }

  /** An allergy widget keeps what was typed through a cancel: the value is
      still in the form when it is opened again. */
  method AllergyDraftSurvivesClose(petId: Scalar, allergen: string) returns (kept: string)
    ensures kept == allergen
  {
    var w := new RecordList(Allergies, petId);
    w.HandleCreateOpen();
    w.HandleCreateChange("allergen", allergen);
    w.HandleClose();
    w.HandleCreateOpen();
    kept := w.draft["allergen"];
  }

  /** What `HandleCreate` logs for a vaccination widget: the draft is
      posted to the pet's `vaccinationRecords` collection without an
      Authorization header, whatever the token fetch would have given. */
  lemma VaccinationCreateRequest(petId: Scalar, draft: map<string, string>,
                                 token: Outcome<string>, response: Outcome<()>)
    ensures var es := MutationEvents(Vaccinations,
              Request(Post, CreatePath(Vaccinations, petId), AuthOf(Vaccinations, token), TextBody(draft)),
              token, response);
            |es| > 0 &&
            es[0] == Request(Post, "/medical/history/" + JsString(petId) + "/vaccinationRecords", None, TextBody(draft))
  {
    VaccinationsDescriptor(petId, petId);
  }

  /** Of the six kinds, only the allergy widget keeps its draft on close. */
  lemma OnlyAllergiesKeepDraft()
    ensures forall k :: k in [Medications, Vaccinations, MedicalConditions, Surgeries, CheckUps] ==> k.closeResetsDraft
    ensures !Allergies.closeResetsDraft
  {
  }
}
