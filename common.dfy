/** Values shared by the portal's pages: optional values, selected files,
    the outcome of a login form and the upper-casing of typed text. */
module Common {

  datatype Option<+T> = None | Some(value: T)

  /** A file chosen in a browser file input; only its presence matters. */
  datatype File = File(name: string)

  /** What a login form's submit handler does: navigate to a route after
      a "Login Successful" toast, or show a "Login Failed" toast and stay. */
  datatype LoginOutcome = LoginSuccessful(route: string) | LoginFailed

  predicate IsLowerAscii(c: char) { 'a' <= c <= 'z' }

  /** `String.prototype.toUpperCase` restricted to ASCII letters. */
  function UpperChar(c: char): (u: char)
    ensures !IsLowerAscii(u)
    ensures IsLowerAscii(c) ==> u as int == c as int - 32
    ensures !IsLowerAscii(c) ==> u == c
  {
    if IsLowerAscii(c) then (c as int - 32) as char else c
  }

  /** Text with no lower-case ASCII letter left in it. */
  predicate NoLowerAscii(s: string)
  {
    forall i :: 0 <= i < |s| ==> !IsLowerAscii(s[i])
  }

  function Upper(s: string): (u: string)
    ensures |u| == |s|
    ensures NoLowerAscii(u)
    ensures forall i :: 0 <= i < |s| ==> u[i] == UpperChar(s[i])
  {
    if s == [] then [] else [UpperChar(s[0])] + Upper(s[1..])
  }

  /** Upper-casing leaves text that is already upper case as it is. */
  lemma UpperFixesUpper(s: string)
    requires NoLowerAscii(s)
    ensures Upper(s) == s
  {
  }

  /** Upper-casing twice is upper-casing once. */
  lemma UpperIdempotent(s: string)
    ensures Upper(Upper(s)) == Upper(s)
  {
  }

  /** Upper-casing never turns typed text into the empty string, nor the
      empty string into text. */
  lemma UpperEmpty(s: string)
    ensures Upper(s) == "" <==> s == ""
  {
  }
}
