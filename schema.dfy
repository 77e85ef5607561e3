/** The zod string checks the forms use. A form shows, per field, the message of the first
    check the value fails; lengths count the string's characters. */
module Schema {
  import opened Values

  /** `z.string().min(n, message)`. */
  function Min(s: string, n: nat, message: string): (r: Option<string>)
    ensures r.None? <==> |s| >= n
    ensures r.Some? ==> r.value == message
  {
    if |s| < n then Some(message) else None
  }

  /** `z.string().max(n, message)`: a string of exactly `n` characters passes. */
  function Max(s: string, n: nat, message: string): (r: Option<string>)
    ensures r.None? <==> |s| <= n
    ensures r.Some? ==> r.value == message
  {
    if |s| > n then Some(message) else None
  }

  /** The first failing check of a chain, if any. */
  function First(a: Option<string>, b: Option<string>): (r: Option<string>)
    ensures r.None? <==> a.None? && b.None?
    ensures a.Some? ==> r == a
    ensures a.None? ==> r == b
  {
    if a.Some? then a else b
  }

  /** `.min(lo, tooShort).max(hi, tooLong)`: valid exactly within `lo..hi`, bounds included. */
  function Between(s: string, lo: nat, hi: nat, tooShort: string, tooLong: string): (r: Option<string>)
    requires lo <= hi
    ensures r.None? <==> lo <= |s| <= hi
    ensures |s| < lo ==> r == Some(tooShort)
    ensures |s| > hi ==> r == Some(tooLong)
  {
    First(Min(s, lo, tooShort), Max(s, hi, tooLong))
  }

  /** `z.string().email(message)`, with the address check as a parameter. */
  function Email(s: string, isEmail: string -> bool, message: string): (r: Option<string>)
    ensures r.None? <==> isEmail(s)
    ensures r.Some? ==> r.value == message
  {
    if isEmail(s) then None else Some(message)
  }
}
