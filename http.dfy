/** What a handler sends back: a status and a JSON body, and the errors whose message a body may carry. */
module Http {
  import opened Js
  import opened Tokens
  import opened UserModel

  /** An error thrown inside a handler or a service call. */
  datatype Fault =
    | Invalid(errors: seq<ValidationError>)   // mongoose ValidationError
    | DuplicateKey(email: string)             // E11000 on the unique email index
    | MailFailed(reason: string)              // the mail transport rejected the message
    | NoEventList                             // TypeError from `webhook.events.includes` when `events` is absent
    | ModelNotSetUp                           // TypeError from `this.models.User` before `initialize`
    | ConnectionFailed                        // `mongoose.connect` rejected
    | Thrown(message: string)                 // `new Error(message)` thrown by the package itself

  /** The `error` field: a fixed text, or `error.message` of a caught fault. */
  datatype Message = Says(text: string) | Rethrown(fault: Fault)

  /** `{ error }`, or `{ success: true, message?, user?, token? }`. */
  datatype Body =
    | Failed(error: Message)
    | Succeeded(message: Option<string>, user: Option<Snapshot>, token: Option<Jwt>)

  datatype Reply = Reply(status: nat, body: Body)

  /** Texts shared by the routes and by `AuthCore`. */
  const InvalidCredentials := "Invalid credentials"
  const BadVerification := "Invalid or expired verification token"

  const JsonContentType := "application/json"

  function Error(status: nat, text: string): Reply {
    Reply(status, Failed(Says(text)))
  }
}
