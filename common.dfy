/** Shared vocabulary of the server: optional values, handler results with their HTTP
    status, the identity and time types, and the few JavaScript string operations the
    handlers rely on (truthiness, `||`, `toLowerCase`, `trim`, `startsWith`, `endsWith`). */
module Common {

  datatype Option<+T> = None | Some(value: T)

  /** A Mongo ObjectId; the model only compares identifiers for equality. */
  type Id = nat

  /** A JavaScript Date; the model only compares dates by their order. */
  type Time = int

  /** The status code and message a handler answers with when it stops early. */
  datatype HttpError = HttpError(status: nat, message: string)

  /** What a handler produces: the document it returns, or the error it answers with. */
  datatype Result<+T> = Ok(value: T) | Err(error: HttpError)

  /** The catch-all answer of every handler, e.g. when a Mongoose validator throws. */
  const ServerError := HttpError(500, "Server error")

  /** The foreign functions and environment variables the handlers consult. */
  datatype Env = Env(
    urlHostname: string -> Option<string>,   // `new URL(s).hostname`; None when the constructor throws
    parseDate: string -> Option<Time>,       // `new Date(s)`; None when `getTime()` is NaN
    allowLocalSources: Option<string>,       // process.env.ALLOW_LOCAL_SOURCES
    skipSourceValidation: Option<string>)    // process.env.SKIP_SOURCE_VALIDATION

  /** JavaScript truthiness of an optional string: undefined and "" are falsy. */
  predicate Truthy(s: Option<string>) {
    s.Some? && s.value != ""
  }

  /** The JavaScript expression `a || b` on optional strings. */
  function Or(a: Option<string>, b: Option<string>): Option<string> {
    if Truthy(a) then a else b
  }

  /** `String(a) === String(b)` for the organisation of a stored document (missing prints
      "undefined") and the organisation of the caller (missing prints "null"): equal only
      when both are present and the same id. */
  predicate SameOrg(recordOrg: Option<Id>, callerOrg: Option<Id>) {
    recordOrg.Some? && callerOrg.Some? && recordOrg.value == callerOrg.value
  }

  predicate IsUpper(c: char) {
    'A' <= c <= 'Z'
  }

  function LowerChar(c: char): char {
    if IsUpper(c) then (c as int + 32) as char else c
  }

  /** `String.prototype.toLowerCase`, on the ASCII letters. */
  function ToLower(s: string): (r: string)
    ensures |r| == |s|
    ensures forall i :: 0 <= i < |s| ==> r[i] == LowerChar(s[i])
  {
    seq(|s|, i requires 0 <= i < |s| => LowerChar(s[i]))
  }

  predicate IsLower(s: string) {
    forall i :: 0 <= i < |s| ==> !IsUpper(s[i])
  }

  /** Lowercasing leaves no upper-case letter and is idempotent. */
  lemma ToLowerIsLower(s: string)
    ensures IsLower(ToLower(s))
    ensures ToLower(ToLower(s)) == ToLower(s)
  {
  }

  /** `(process.env.X || 'true').toLowerCase() === 'true'`: a flag that is on unless it is
      set to something other than "true" in any letter case. */
  function EnvFlag(v: Option<string>): (on: bool)
    ensures !Truthy(v) ==> on
    ensures Truthy(v) && v.value == "true" ==> on
    ensures Truthy(v) && v.value == "false" ==> !on
  {
    !Truthy(v) || ToLower(v.value) == "true"
  }

  predicate StartsWith(s: string, prefix: string) {
    |prefix| <= |s| && s[..|prefix|] == prefix
  }

  predicate EndsWith(s: string, suffix: string) {
    |suffix| <= |s| && s[|s| - |suffix|..] == suffix
  }

  /** The white space that `String.prototype.trim` removes: tab, vertical tab, form feed,
      the byte-order mark, the space separators of Unicode category Zs (space, no-break
      space, U+1680, U+2000 to U+200A, U+202F, U+205F, U+3000) and the line terminators
      (line feed, carriage return, U+2028, U+2029). */
  predicate IsJsSpace(c: char) {
    c == ' ' || c == '\t' || c == '\n' || c == '\r' ||
    c as int == 0x0B || c as int == 0x0C || c as int == 0xA0 ||
    c as int == 0x1680 || 0x2000 <= c as int <= 0x200A || c as int == 0x202F ||
    c as int == 0x205F || c as int == 0x3000 ||
    c as int == 0xFEFF || c as int == 0x2028 || c as int == 0x2029
  }

  /** The number of white-space characters that open `s`. */
  function LeadingSpaces(s: string): (n: nat)
    ensures n <= |s|
    ensures forall i :: 0 <= i < n ==> IsJsSpace(s[i])
    ensures n == |s| || !IsJsSpace(s[n])
  {
    if s != [] && IsJsSpace(s[0]) then 1 + LeadingSpaces(s[1..]) else 0
  }

  function TrimEnd(s: string): (r: string)
    ensures |r| <= |s| && r == s[..|r|]
    ensures forall i :: |r| <= i < |s| ==> IsJsSpace(s[i])
    ensures r == [] || !IsJsSpace(r[|r| - 1])
  {
    if s != [] && IsJsSpace(s[|s| - 1]) then TrimEnd(s[..|s| - 1]) else s
  }

  /** `String.prototype.trim`: the infix of `s` that starts after its leading white space
      and ends before its trailing white space. */
  function Trim(s: string): (r: string)
    ensures r == [] || (!IsJsSpace(r[0]) && !IsJsSpace(r[|r| - 1]))
    ensures LeadingSpaces(s) + |r| <= |s|
    ensures r == s[LeadingSpaces(s)..LeadingSpaces(s) + |r|]
    ensures forall i :: LeadingSpaces(s) + |r| <= i < |s| ==> IsJsSpace(s[i])
  {
    TrimEnd(s[LeadingSpaces(s)..])
  }

  /** A string of nothing but white space trims to the empty string. */
  lemma TrimAllSpace(s: string)
    requires forall i :: 0 <= i < |s| ==> IsJsSpace(s[i])
    ensures Trim(s) == ""
  {
  }

  /** The ideographic space U+3000, alone, trims to the empty string. */
  lemma IdeographicSpaceTrimmed()
    ensures Trim([0x3000 as char]) == ""
  {
    TrimAllSpace([0x3000 as char]);
  }

  lemma AppendAssoc<T>(x: seq<T>, y: seq<T>, z: seq<T>)
    ensures x + y + z == x + (y + z)
  {
  }

  /** `a + b` is `a` followed by all of `b` but its last element, then that element. */
  lemma AppendSnoc<T>(a: seq<T>, b: seq<T>)
    requires |b| > 0
    ensures b == b[..|b| - 1] + [b[|b| - 1]]
    ensures a + b == (a + b[..|b| - 1]) + [b[|b| - 1]]
  {
  }
}
