/**
 * The document gateway: generic create/list/update/delete over one
 * (database, collection) pair. A backend failure never escapes: it becomes
 * an `ErrorResponse` carrying the failure's message.
 */
module DatabaseService {
  import opened Types

  const EmptyIdError := "Id cannot be empty"

  /** The message `getErrorResponse` extracts: an Error's `message`, any other value's `String()` form. */
  function ErrorText(e: Thrown): (t: string)
    ensures e.ErrorObject? ==> t == e.message
    ensures e.OtherValue? ==> t == e.text
  {
    match e
    case ErrorObject(message, _) => message
    case OtherValue(text) => text
  }

  /** `getErrorResponse`: the normalised failure for a thrown value. */
  function GetErrorResponse<T>(e: Thrown): (r: Response<T>)
    ensures IsErrorResponse(r)
    ensures ErrorField(r) == Some(ErrorText(e))
  {
    Failure(ErrorText(e))
  }

  /** The value of `response.error`; `None` when the field is absent. */
  function ErrorField<T>(r: Response<T>): Option<string> {
    match r
    case Failure(e) => Some(e)
    case Partial(_, e) => Some(e)
    case _ => None
  }

  /** `isErrorResponse`: the response is truthy and its `error` field is not null/undefined. */
  function IsErrorResponse<T>(r: Response<T>): (b: bool)
    ensures b <==> r.Failure? || r.Partial?
  {
    !r.Null? && ErrorField(r).Some?
  }

  /**
   * `listDocuments`: the backend's `documents`, or `[]` when that field is
   * absent; a failure becomes its message.
   */
  function ListDocuments(db: string, collection: string, queries: seq<Query>,
                         outcome: Outcome<Option<seq<Note>>>): (r: Traced<Response<seq<Note>>>)
    ensures r.calls == [DbList(db, collection, queries)]
    ensures IsErrorResponse(r.result) <==> outcome.Threw?
    ensures outcome.Threw? ==> r.result.Failure? && r.result.error == ErrorText(outcome.thrown)
    ensures outcome.Returned? && outcome.value.Some? ==> r.result == Value(outcome.value.value)
    ensures outcome.Returned? && outcome.value.None? ==> r.result == Value([])
  {
    var call := DbList(db, collection, queries);
    match outcome
    case Returned(documents) =>
      Traced(Value(if documents.Some? then documents.value else []), [call])
    case Threw(e) => Traced(GetErrorResponse(e), [call])
  }

  /** `createDocument`: an absent id argument is sent to the backend as `''`. */
  function CreateDocument(db: string, collection: string, data: Payload, id: Option<string>,
                          outcome: Outcome<Note>): (r: Traced<Response<Note>>)
    ensures id.None? ==> r.calls == [DbCreate(db, collection, "", data)]
    ensures id.Some? ==> r.calls == [DbCreate(db, collection, id.value, data)]
    ensures IsErrorResponse(r.result) <==> outcome.Threw?
    ensures outcome.Threw? ==> r.result.Failure? && r.result.error == ErrorText(outcome.thrown)
    ensures outcome.Returned? ==> r.result == Value(outcome.value)
  {
    var call := DbCreate(db, collection, if id.Some? then id.value else "", data);
    match outcome
    case Returned(doc) => Traced(Value(doc), [call])
    case Threw(e) => Traced(GetErrorResponse(e), [call])
  }

  /** `updateDocument`: the backend's updated document, or the failure's message. */
  function UpdateDocument(db: string, collection: string, id: string, data: Payload,
                          outcome: Outcome<Note>): (r: Traced<Response<Note>>)
    ensures r.calls == [DbUpdate(db, collection, id, data)]
    ensures IsErrorResponse(r.result) <==> outcome.Threw?
    ensures outcome.Threw? ==> r.result.Failure? && r.result.error == ErrorText(outcome.thrown)
    ensures outcome.Returned? ==> r.result == Value(outcome.value)
  {
    var call := DbUpdate(db, collection, id, data);
    match outcome
    case Returned(doc) => Traced(Value(doc), [call])
    case Threw(e) => Traced(GetErrorResponse(e), [call])
  }

  /**
   * `deleteDocument`: an empty id is refused before the backend is reached;
   * otherwise `{ success: true }` (modelled as `Value(true)`) or the failure's message.
   */
  function DeleteDocument(db: string, collection: string, id: string,
                          outcome: Outcome<()>): (r: Traced<Response<bool>>)
    ensures id == "" ==> r.result == Failure(EmptyIdError) && r.calls == []
    ensures id != "" ==> r.calls == [DbDelete(db, collection, id)]
    ensures id != "" ==> (IsErrorResponse(r.result) <==> outcome.Threw?)
    ensures id != "" && outcome.Threw? ==> r.result.Failure? && r.result.error == ErrorText(outcome.thrown)
    ensures id != "" && outcome.Returned? ==> r.result == Value(true)
  {
    if id == "" then Traced(Failure(EmptyIdError), [])
    else
      var call := DbDelete(db, collection, id);
      match outcome
      case Returned(_) => Traced(Value(true), [call])
      case Threw(e) => Traced(GetErrorResponse(e), [call])
  }

  /**
   * The two edge cases of the classification: `null` is not an error, and a
   * failure counts as one even when its message is the empty string.
   */
  lemma IsErrorResponseShapes<T>()
    ensures !IsErrorResponse<T>(Null)
    ensures IsErrorResponse<T>(Failure(""))
  {
  }

  /** No gateway operation ever reaches the backend with an empty document id for deletion. */
  lemma DeleteNeverSendsEmptyId(db: string, collection: string, id: string, outcome: Outcome<()>)
    ensures forall c :: c in DeleteDocument(db, collection, id, outcome).calls ==> c.DbDelete? && c.id != ""
  {
  }
}
