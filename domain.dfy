/** The entities the screens exchange with the backend, the outcome of an
    awaited call, and the events the components emit, which every
    component appends to a ghost log so that ordering can be stated. */
module Domain {
  import opened JsValues
  import opened Registry

  /** What an awaited call (a credential fetch or an HTTP request) gave:
      the payload, or a thrown error that the component catches. */
  datatype Outcome<+T> = Ok(payload: T) | Err

  datatype Verb = Get | Post | Delete

  /** A medical-history record as the backend returns it. */
  datatype Record = Record(id: Scalar, fields: map<string, string>)

  /** A pet as the backend returns it; only `id` is interpreted. */
  datatype Pet = Pet(id: Scalar, attributes: map<string, Scalar>)

  datatype Event =
    | Request(verb: Verb, path: string, bearer: Option<string>, body: map<string, Scalar>)
      // an HTTP request; `bearer` is the token of an Authorization header
    | Notify(arg: Option<string>)  // the `onRecordUpdate` prop, with its argument if any
    | OverlaysClosed               // a record widget's `handleClose`
    | PetCreated                   // the `onPetCreated` prop
    | Closed                       // a dialog's `onClose` prop
    | Navigated(path: string)      // `navigate(path)`
    | Alerted(message: string)     // `alert(message)`
    | HorseSelected(horse: Horse)  // the `onHorseSelected` prop

  /** The Authorization header a call sends when it first awaits a token. */
  function BearerOf(token: Outcome<string>): Option<string>
  {
    if token.Ok? then Some(token.payload) else None
  }

  /** A JSON body whose fields are all strings, as a form draft is sent. */
  function TextBody(m: map<string, string>): map<string, Scalar>
  {
    map k | k in m :: Text(m[k])
  }

  /** A field of a JavaScript object: `undefined` when the key is absent. */
  function Prop(m: map<string, Scalar>, k: string): Scalar
  {
    if k in m then m[k] else Undefined
  }
}
