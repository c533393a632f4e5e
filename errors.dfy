/** The error records sent to clients: ErrorMessage (src/errors/ErrorMessage.ts) and the
  * AppStandardError constructor (src/errors/AppStandardError.ts) with the superclass
  * constructor it runs first (src/errors/ApplicationError.ts). */
module Errors {
  import opened Base

  /** One field-scoped entry of an error body: `{field, messages}`. */
  datatype FieldError = FieldError(field: string, messages: seq<string>)

  /** The body `{type, message, errors}`; `kind` holds the JSON `type` key. */
  datatype ErrorMessage = ErrorMessage(kind: string, message: string, errors: seq<FieldError>)

  /** The `payload` argument object; `errors` is its optional `errors` property. */
  datatype Payload = Payload(errors: Option<seq<FieldError>>)

  /** The fields of an ApplicationError / AppStandardError instance. */
  datatype StandardError = StandardError(
    status: int, message: string, errorMessage: ErrorMessage, payload: Payload)

  /** The empty object `{}`. */
  const EmptyPayload := Payload(None)

  /** The message the handlers and the upload filter give every rejected input. */
  const InvalidInput := "Thông tin không hợp lệ!"

  /** The superclass constructor: it builds an errorMessage from its own `errors`
    * argument and keeps the payload it is given. */
  function ApplicationErrorInit(
    status: int, kind: string, message: string, errors: seq<FieldError>, payload: Payload
  ): StandardError
  {
    StandardError(status, message, ErrorMessage(kind, message, errors), payload)
  }

  /** `new AppStandardError(type, message, errorMessage, payload)`. The superclass is called
    * with status 400 and no errors; then the subclass field initialiser `payload = {}`
    * runs, and the constructor body replaces errorMessage by one whose errors are
    * `payload.errors` when given and otherwise the single `noneField` entry carrying the
    * `errorMessage` strings. */
  function NewAppStandardError(
    kind: string, message: string, messages: seq<string>, payload: Payload
  ): (e: StandardError)
    ensures e.status == 400
    ensures e.message == message
    ensures e.errorMessage.kind == kind && e.errorMessage.message == message
    ensures payload.errors.None? ==> e.errorMessage.errors == [FieldError("noneField", messages)]
    ensures payload.errors.Some? ==> e.errorMessage.errors == payload.errors.value
    ensures e.payload == EmptyPayload
  {
    var fromSuper := ApplicationErrorInit(400, kind, message, [], payload);
    var afterFields := fromSuper.(payload := EmptyPayload);
    var errors := if payload.errors.Some? then payload.errors.value
                  else [FieldError("noneField", messages)];
    afterFields.(errorMessage := ErrorMessage(kind, message, errors))
  }
}
