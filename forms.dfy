/**
 * What the two dashboard forms share: the schema checks they use (a string
 * field with a minimum length, an optional string, a default), the issues a
 * failed check reports, and the toasts and navigations a page produces.
 */
module Forms {
  import opened Js

  /** One failed check: the field's name and the message shown under it. */
  datatype Issue = Issue(path: string, message: string)

  /** The message a required field reports when it is missing. */
  const REQUIRED := "Required"

  /**
   * `z.string().min(n, message)` on a field that may be missing: a missing
   * field reports "Required", a short one the given message.
   */
  function MinLengthIssues(path: string, value: Option<string>, n: nat, message: string): (issues: seq<Issue>)
    ensures issues == [] <==> value.Some? && |value.value| >= n
    ensures |issues| <= 1
    ensures issues != [] ==> issues[0].path == path
    ensures value.None? ==> issues == [Issue(path, REQUIRED)]
    ensures value.Some? && |value.value| < n ==> issues == [Issue(path, message)]
  {
    if value.None? then [Issue(path, REQUIRED)]
    else if |value.value| < n then [Issue(path, message)]
    else []
  }

  /** A notification shown to the user. */
  datatype Toast = ErrorToast(title: string, description: Option<string>) | SuccessToast(title: string, description: Option<string>)
}
