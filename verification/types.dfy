/**
 * Values shared by every layer of the notes app: the records the backend
 * stores, the duck-typed response shapes the gateways return, the calls the
 * gateways issue to the backend, and the effects the screens emit.
 */
module Types {

  datatype Option<T> = None | Some(value: T)

  /** A note document as the screens see it; `id` is the document's `$id`. */
  datatype Note = Note(id: string, text: string, createdAt: string)

  /** The account of the signed-in user; only `$id` and `email` are read by the app. */
  datatype UserSession = UserSession(id: string, email: string)

  /** An email/password session returned by the account service. */
  datatype Session = Session(id: string, userId: string)

  /**
   * What a failing backend call throws: an `Error` instance, carrying its
   * message and stack trace, or any other value, seen through `String(...)`.
   */
  datatype Thrown = ErrorObject(message: string, stack: string) | OtherValue(text: string)

  /** The outcome of one backend call: it returns a value or it throws. */
  datatype Outcome<T> = Returned(value: T) | Threw(thrown: Thrown)

  /**
   * The JavaScript shapes a gateway hands back.
   * `Null` is `null`/`undefined`; `Value` is a payload object without an
   * `error` field; `Failure` is an `ErrorResponse` `{ error }`; `Partial` is a
   * payload object that also carries an `error` field (`{ data: [], error }`).
   */
  datatype Response<T> =
    | Null
    | Value(value: T)
    | Failure(error: string)
    | Partial(value: T, error: string)

  /** An equality filter `attribute = value` on a document listing. */
  datatype Query = Equal(attribute: string, value: string)

  /** The document bodies the app writes: a new note, or a text-only patch. */
  datatype Payload =
    | NoteFields(text: string, userId: string, createdAt: string)
    | TextField(text: string)

  /** One request to the backend, with the arguments it was given. */
  datatype Call =
    | DbList(db: string, collection: string, queries: seq<Query>)
    | DbCreate(db: string, collection: string, id: string, data: Payload)
    | DbUpdate(db: string, collection: string, id: string, data: Payload)
    | DbDelete(db: string, collection: string, id: string)
    | AccountCreate(id: string, email: string, password: string)
    | AccountCreateSession(email: string, password: string)
    | AccountGet
    | AccountDeleteSession(sessionId: string)

  /** A result together with the backend calls made while computing it, in order. */
  datatype Traced<T> = Traced(result: T, calls: seq<Call>)

  /** Effects a screen emits: an alert dialog, a cancel/confirm prompt, or a route change. */
  datatype Event =
    | Alert(title: string, message: Option<string>)
    | Prompt(heading: string, question: string)
    | Navigate(path: string)

  /** The database and notes-collection identifiers read from the app's configuration. */
  datatype Config = Config(db: string, notesCollection: string)
}
