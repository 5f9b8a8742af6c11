# vac-tracker-fe, modelled in Dafny

This project models the client side of a pet health tracker. The model covers these screens:

- The **six medical-history widgets**: medications, vaccination records, medical conditions, allergies, surgeries and check-ups. Each widget lists a pet's records, shows one record in a details dialog, deletes it, and creates a new one from a draft form. All six become one class, `RecordCollection.RecordList`, with a `Kind` descriptor for what differs between them:
  - the draft's fields;
  - the collection's path segment;
  - whether a bearer token is sent;
  - the argument passed to the parent's refresh callback;
  - whether closing resets the draft.
- The **pet-creation dialog** (`PetForm`): the draft pet, required-field validation, submission, and the merge of a horse imported from the national horse registry.
- The **horse-import dialog** (`HorseImport`): the registry search and the dates it lists.
- The **owner's pet list** (`PetListing`): fetching, two-step delete confirmation, and the local filter that follows a delete.
- The **single-pet fetch** (`PetFetch`): the `usePetData` hook and the details screen, which repeats that fetch inline and then chooses between a spinner, "Pet not found" and the details.

How the model treats the environment:

- Each component is a class whose fields are the component's state variables.
- Each handler is a method that changes exactly those fields.
- Anything a handler causes outside its own state goes into a ghost event `log`, so that ordering can be stated. That covers HTTP requests (verb, path, Authorization token, JSON body) and calls to the parent's callbacks (`onRecordUpdate`, `onPetCreated`, `onClose`, `onHorseSelected`). It also covers `navigate` and `alert`.
- Awaited calls are parameters of type `Outcome`, either `Ok(payload)` or `Err`. That covers fetching an access token and the HTTP request. `Err` stands for anything the surrounding `try` block catches.
- JavaScript values that reach strings are the `Scalar` type: `undefined`, `null`, an integer, or a string. This applies to ids interpolated into paths and to registry fields. `JsValues` gives them JavaScript's truthiness and `String(...)`, and defines `padStart`.
- Date strings of the form `yyyy-MM-dd`, built from the registry's year, month and day, are proved to round-trip.

Facts about the code that the model keeps as they are:

- Imported gender is copied verbatim from the registry. There is no lookup to Male/Female.
- Validation accepts any truthy gender.
- The allergy widget does not reset its draft on close.
- Nothing prevents a second submission while a request is still in flight.
- No handler guards against the details flag and the create-form flag being set together. The details dialog is modal, so on screen its backdrop covers the create buttons, but the model allows `HandleCreateOpen` while the details dialog is open.
- Validation errors from an earlier attempt are never cleared.
- A failed create or delete is only logged to the console. It is not surfaced to the user.

## Model

| member | source | states |
|---|---|---|
| JsValues.NatToString | src/components/pet/ImportHorseDialog.js:60 | `String(n)` of a non-negative integer is a non-empty digit string; it has one digit exactly when n < 10, and starts with '0' only for 0 |
| JsValues.PadStart | src/components/pet/ImportHorseDialog.js:60 | `padStart(width, fill)` returns a string of length max(width, \|s\|) that ends with s and is filled with the fill character before it |
| JsValues.ParseNatToString | src/components/pet/ImportHorseDialog.js:60 | reading the decimal rendering of n back gives n |
| JsValues.ParseNatLeadingZeros | src/components/pet/ImportHorseDialog.js:60 | zeros added in front of a digit string do not change the number it reads as |
| JsValues.Pad2RoundTrip | src/components/pet/ImportHorseDialog.js:60 | for n < 100, `String(n).padStart(2, '0')` is exactly two digits and reads back as n |
| Registry.DateStringRoundTrip | src/components/pet/CreatePetDialog.js:65 | for a four-digit year and a month and day below 100, the date template is 10 characters long with dashes at positions 4 and 7, and its three parts read back as year, month and day |
| Registry.DateStringExample | src/components/pet/CreatePetDialog.js:65 | year 2015, month 3, day 7 give "2015-03-07" |
| RecordCollection.EmptyDraft | src/components/medical-history/MedicationRecordList.js:15 | a widget's initial draft has exactly the kind's fields as keys, each holding the empty string |
| RecordCollection.NotifyOnlyAfterSuccess | src/components/medical-history/MedicationRecordList.js:52-64 | the parent is notified exactly when the token fetch (if any) and the request both succeeded, and then after the request and before the close; a failure never closes |
| RecordCollection.ExactlyOneCreateEntryPoint | src/components/medical-history/MedicationRecordList.js:73-93 | exactly one of the small add button and the large create card is shown; the card exactly when there are no records |
| RecordCollection.MedicationsDescriptor | src/components/medical-history/MedicationRecordList.js:15-59 | five draft fields, create and delete paths under `medications`, bearer token sent, notify without argument, close resets the draft |
| RecordCollection.VaccinationsDescriptor | src/components/medical-history/VaccinationRecordList.js:14-63 | four draft fields, paths under `vaccinationRecords`, no Authorization header, notify without argument, close resets the draft |
| RecordCollection.MedicalConditionsDescriptor | src/components/medical-history/MedicalConditionList.js:15-59 | four draft fields, paths under `medicalConditions`, bearer token, notify without argument, close resets the draft |
| RecordCollection.AllergiesDescriptor | src/components/medical-history/AllergyList.js:14-59 | three draft fields, paths under `allergies`, bearer token, notify with 'allergies', and close leaves every draft as it was |
| RecordCollection.SurgeriesDescriptor | src/components/medical-history/SurgeryList.js:14-58 | three draft fields, paths under `surgeries`, bearer token, notify without argument, close resets the draft |
| RecordCollection.CheckUpsDescriptor | src/components/medical-history/CheckUpList.js:13-52 | three draft fields, paths under `checkUps`, no Authorization header, notify with 'checkUps', close resets the draft |
| RecordCollection.AllergyDraftSurvivesClose | src/components/medical-history/AllergyList.js:22-25 | in an allergy widget, a value typed into the create form is still there after a close and a reopen |
| RecordCollection.VaccinationCreateRequest | src/components/medical-history/VaccinationRecordList.js:58-63 | the request a vaccination widget's create logs is a POST of the draft to the pet's `vaccinationRecords` collection with no Authorization header, whatever the token fetch gives |
| RecordCollection.OnlyAllergiesKeepDraft | src/components/medical-history/AllergyList.js:22-25 | of the six widgets only the allergy widget keeps its draft on close |
| RecordCollection.RecordList.constructor | src/components/medical-history/MedicationRecordList.js:11-15 | nothing selected, both dialogs closed, the empty draft, no events |
| RecordCollection.RecordList.HandleRecordClick | src/components/medical-history/MedicationRecordList.js:18-21 | selects the record and opens the details dialog, nothing else changes |
| RecordCollection.RecordList.HandleClose | src/components/medical-history/MedicationRecordList.js:23-27 | closes both dialogs and resets the draft for the kinds that do, keeps the selection |
| RecordCollection.RecordList.HandleCreateOpen | src/components/medical-history/MedicationRecordList.js:43-45 | opens the create form, nothing else changes |
| RecordCollection.RecordList.HandleCreateChange | src/components/medical-history/MedicationRecordList.js:47-50 | sets one draft field and keeps every other field |
| RecordCollection.RecordList.HandleCreate | src/components/medical-history/MedicationRecordList.js:52-64 | posts the draft to the kind's create path with the kind's header; on success notifies and closes; on any failure only the request (if it was sent) is logged and the state is kept |
| RecordCollection.RecordList.HandleDelete | src/components/medical-history/MedicationRecordList.js:29-41 | deletes by id at the kind's delete path; same success and failure behaviour as create |
| RecordCollection.RecordList.DeleteSelected | src/components/medical-history/MedicationRecordList.js:195 | the details dialog's Delete button deletes the selected record; on success both dialogs close and the draft is reset for the kinds that do, on failure the details dialog stays open and the create form and draft are kept |
| PetForm.InitialPet | src/components/pet/CreatePetDialog.js:9-19 | the initial draft has the nine form fields, all empty except `owner`, which is the prop |
| PetForm.ValidateFields | src/components/pet/CreatePetDialog.js:32-38 | an error is reported exactly for each of name, species and gender that is falsy, with that field's message |
| PetForm.ValidIffRequiredPresent | src/components/pet/CreatePetDialog.js:41-45 | a draft passes validation exactly when name, species and gender are all truthy |
| PetForm.ValidationIgnoresOtherFields | src/components/pet/CreatePetDialog.js:32-38 | changing a field other than the three required ones never changes the validation result |
| PetForm.InitialPetFailsValidation | src/components/pet/CreatePetDialog.js:9-38 | the initial draft fails on all three required fields |
| PetForm.MergeHorse | src/components/pet/CreatePetDialog.js:64-76 | the seven imported fields are set from the horse (species "Horse", date from the template), and every other field of the draft is kept |
| PetForm.ImportKeepsOwnerAndWeight | src/components/pet/CreatePetDialog.js:64-76 | importing into a fresh draft keeps the owner and the empty weight |
| PetForm.ImportTwice | src/components/pet/CreatePetDialog.js:64-76 | importing one horse and then another gives the same draft as importing only the second |
| PetForm.CreatePetDialog.constructor | src/components/pet/CreatePetDialog.js:21-23 | initial draft, no errors, import dialog closed |
| PetForm.CreatePetDialog.HandleInputChange | src/components/pet/CreatePetDialog.js:27-30 | sets one field to the typed string and keeps every other field |
| PetForm.CreatePetDialog.HandleCreatePet | src/components/pet/CreatePetDialog.js:40-62 | an invalid draft stores the errors and sends nothing; otherwise posts the draft with the token, and only on success notifies, resets the draft, closes and navigates to the new pet, in that order; errors are never cleared |
| PetForm.CreatePetDialog.OpenImport | src/components/pet/CreatePetDialog.js:96 | opens the import dialog, nothing else changes |
| PetForm.CreatePetDialog.CloseImport | src/components/pet/CreatePetDialog.js:193 | closes the import dialog, nothing else changes |
| PetForm.CreatePetDialog.HandleHorseSelected | src/components/pet/CreatePetDialog.js:64-80 | the draft becomes the merge of the horse into it, and the import dialog closes |
| PetForm.CreatePetDialog.ResetForm | src/components/pet/CreatePetDialog.js:82-84 | the draft becomes the initial draft |
| PetForm.CreatePetDialog.HandleCloseDialog | src/components/pet/CreatePetDialog.js:86-89 | resets the draft and then closes |
| HorseImport.FormatDate | src/components/pet/ImportHorseDialog.js:58-61 | the listed date is empty exactly when year, month or day is falsy, and otherwise is the date template |
| HorseImport.ListedDateIsImportedDate | src/components/pet/ImportHorseDialog.js:58-61 | when all three date parts are present, the listed date is the one the form receives on import |
| HorseImport.MissingMonthReachesForm | src/components/pet/CreatePetDialog.js:65 | a horse whose birth month is `undefined` lists no date, yet the form receives year, "-undefined-" and the padded day (for example "2015-undefined-07") |
| HorseImport.ImportHorseDialog.constructor | src/components/pet/ImportHorseDialog.js:8-11 | empty inputs, not loading, no results |
| HorseImport.ImportHorseDialog.OpenChanged | src/components/pet/ImportHorseDialog.js:15-21 | closing the dialog clears the results and both inputs; opening it changes nothing |
| HorseImport.ImportHorseDialog.SetSearchTerm | src/components/pet/ImportHorseDialog.js:77 | sets the name input only |
| HorseImport.ImportHorseDialog.SetBirthYear | src/components/pet/ImportHorseDialog.js:88 | sets the birth-year input only |
| HorseImport.ImportHorseDialog.HandleSearch | src/components/pet/ImportHorseDialog.js:23-47 | an empty name alerts and sends nothing; otherwise posts name and year with the token; success replaces the results and clears both inputs, failure keeps them; loading ends false |
| HorseImport.ImportHorseDialog.HandleSelectHorse | src/components/pet/ImportHorseDialog.js:49-55 | hands the horse to the form before closing, and empties the results |
| PetListing.Without | src/components/pet/PetList.js:73 | the filtered list holds exactly the pets whose id differs from the deleted one, and is no longer |
| PetListing.WithoutConcat | src/components/pet/PetList.js:73 | the filter keeps the order of the pets it keeps |
| PetListing.WithoutAbsent | src/components/pet/PetList.js:73 | a list with no pet of that id is left unchanged |
| PetListing.WithoutCounts | src/components/pet/PetList.js:73 | each pet with another id stays as many times as it was there, and no pet with the id remains |
| PetListing.WithoutIdempotent | src/components/pet/PetList.js:73 | filtering by the same id a second time changes nothing |
| PetListing.DeleteScenario | src/components/pet/PetList.js:70-78 | pets 7 and 42, deleting 42 leaves only 7 |
| PetListing.PetList.constructor | src/components/pet/PetList.js:30-34 | no pets, loading, both dialogs closed, nothing selected |
| PetListing.PetList.FetchPets | src/components/pet/PetList.js:38-53 | with a token, fetches the owner's pets with it; success replaces the list, failure keeps it; loading ends false |
| PetListing.PetList.HandleDeleteClick | src/components/pet/PetList.js:59-63 | selects the pet and opens the confirmation |
| PetListing.PetList.HandleDialogClose | src/components/pet/PetList.js:65-68 | closes the confirmation and drops the selection |
| PetListing.PetList.HandleDeleteConfirm | src/components/pet/PetList.js:70-78 | deletes the selected pet without an Authorization header; success removes every pet with its id from the list and closes, failure keeps everything |
| PetListing.PetList.HandleItemClick | src/components/pet/PetList.js:80-82 | navigates to the pet's details |
| PetListing.PetList.HandleCreateDialogOpen | src/components/pet/PetList.js:84-86 | opens the create dialog |
| PetListing.PetList.HandleCreateDialogClose | src/components/pet/PetList.js:88-90 | closes the create dialog |
| PetListing.PetList.HandlePetCreated | src/components/pet/PetList.js:92-94 | fetches the list again, as `FetchPets` |
| PetFetch.ScreenFor | src/components/pet/PetDetails.js:30-46 | spinner exactly while loading, "Pet not found" exactly when loading is over and there is no pet, otherwise the held pet's details |
| PetFetch.PetDetailsScreen.constructor | src/components/pet/PetDetails.js:8-9 | no pet, loading |
| PetFetch.PetDetailsScreen.FetchPet | src/components/pet/PetDetails.js:12-25 | requests the pet without authorization; success stores the response body, so a falsy body leaves no pet; failure keeps the previous value; loading ends false |
| PetFetch.PetDetailsScreen.RouteChanged | src/components/pet/PetDetails.js:11-28 | a new route id fetches again, without going back to loading |
| PetFetch.PetDetailsScreen.View | src/components/pet/PetDetails.js:30-46 | the screen rendered from the current state |
| PetFetch.FirstVisit | src/components/pet/PetDetails.js:8-46 | opening the screen shows the spinner, then the pet's details after a successful fetch with a pet, or "Pet not found" after a failed fetch or a falsy body |
| PetFetch.FailedRouteChange | src/components/pet/PetDetails.js:11-28 | after moving to a route whose fetch fails, the previous pet's details stay on screen |
| PetFetch.PetDataHook.constructor | src/components/api/usePetData.js:5-6 | no pet, loading |
| PetFetch.PetDataHook.GetPet | src/components/api/usePetData.js:9-18 | requests the pet; success stores the response body, even a falsy one; failure keeps the pet; loading ends false |
| PetFetch.PetDataHook.IdChanged | src/components/api/usePetData.js:8-21 | a new id fetches again |
| PetFetch.PetDataHook.SetPet | src/components/api/usePetData.js:23 | the setter replaces the pet wholesale |
| PetFetch.HookLifecycle | src/components/api/usePetData.js:4-23 | a fresh hook fetches: success gives the response body and failure no pet, loading ends false either way, and the setter then replaces it |

## Left out

- Rendering is left out: JSX layout, styling, icons and text labels. Only the decisions that pick what is shown are modelled: the create entry point, the details screen, and the date listed for a horse.
- HTTP, the Auth0 token fetch and the backend are represented only by their outcome (`Outcome`). Response bodies are taken as already decoded. The backend host prefix is dropped from every path. The `Accept` and `Content-Type` headers are not recorded.
- The shared API client (`src/components/api/api.js`) is context only. Its delete helpers are unused by the widgets. Its vaccination path (`vaccinations`, line 21) differs from the `vaccinationRecords` path the widget sends.
- Dates are not modelled beyond the `yyyy-MM-dd` template. `new Date(...)`, `toLocaleDateString`, and the age computed from the current year in the list are left out, because they depend on the clock and the locale.
- `console.error` is left out. A caught error is just the `Err` path.
- Numbers are integers. Floating point, `NaN` and exponent notation in `String(...)` are left out.
- JsValues.PadStart: a Dafny `string` counts Unicode scalar values, whereas JavaScript's `padStart` counts UTF-16 code units. A month or day string holding a character outside the Basic Multilingual Plane would be padded less in JavaScript.
- React scheduling is collapsed: each handler runs to completion and its state updates apply at once. The transient `loading = true` during a horse search is therefore not a separate observable state. Concurrent in-flight requests are not modelled. Neither are responses arriving after a component is gone, or the stale closures they would see.
- RecordCollection.RecordList.HandleCreate: for the kinds without a bearer token, the `token` parameter is ignored. Those kinds never fetch one.
- PetListing.PetList.HandleDeleteConfirm: requires the confirmation to be open. The Delete button exists only then, and it reads the selected pet's id.
- PetFetch.PetDataHook.GetPet: a response body is either a pet or falsy (`null`, `""`). A truthy body that is not a pet object is not modelled.
- PetFetch.PetDetailsScreen.FetchPet: the same restriction on the response body as the hook.
- HorseImport.ImportHorseDialog.HandleSearch: the `horses` field of the search response is taken as the result list directly.
