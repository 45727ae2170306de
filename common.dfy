/** Values shared by the storefront's components: optional values (JavaScript's
    `undefined`/`null` versus a value), backend replies, notification snackbars,
    and the outcome of a form validator. */
module Common {

  /** A value that may be absent: `None` stands for `undefined` or `null`. */
  datatype Option<T> = None | Some(value: T) {
    function GetOr(default: T): (r: T)
      ensures Some? ==> r == value
      ensures None? ==> r == default
    {
      match this
      case Some(v) => v
      case None => default
    }
  }

  /** What an HTTP call to the backend produced: a body, an error status with the
      `message` of its JSON body, or no response at all (network failure). */
  datatype Reply<T> = Ok(data: T) | Failed(status: int, message: string) | NoResponse

  /** One notification shown to the user: its text and its variant. */
  datatype Snack = Snack(message: string, variant: string)

  /** The result of a form validator: whether the form may be submitted, and the
      warnings it raised on the way, in order. */
  datatype Validation = Validation(ok: bool, warnings: seq<Snack>)

  /** JavaScript truthiness of a string value read from storage. */
  predicate Truthy(s: Option<string>)
  {
    s.Some? && s.value != ""
  }

  const GenericFailure: string :=
    "Something went wrong. Check that the backend is running, reachable and returns valid JSON."

  /** The snackbar every catch block raises: a 400 reply shows the backend's own
      message, anything else shows the given generic text. */
  function ErrorSnack<T>(reply: Reply<T>, generic: string): (s: Snack)
    requires !reply.Ok?
    ensures s.variant == "error"
    ensures reply.Failed? && reply.status == 400 ==> s.message == reply.message
    ensures !(reply.Failed? && reply.status == 400) ==> s.message == generic
  {
    if reply.Failed? && reply.status == 400 then Snack(reply.message, "error")
    else Snack(generic, "error")
  }
}
