/**
 * The request-body validators of the signup and login routes, and the
 * email pattern `^[^@\s]+@[^@\s]+\.[^@\s]+$` they share with the client.
 * The pattern is a loose shape check, far from the addr-spec of section
 * 3.4.1 of RFC 5322.
 */
module Validation {
  import opened Wrappers
  import opened Text
  import opened Seqs

  /** A JSON body field as Express hands it over. */
  datatype JsValue =
    | Undefined
    | Null
    | Bool(b: bool)
    | Num(n: int)
    | Str(s: string)
    | Composite(text: string)   // an object or array; `text` is what `String(v)` gives

  predicate Truthy(v: JsValue) {
    match v
    case Undefined => false
    case Null => false
    case Bool(b) => b
    case Num(n) => n != 0
    case Str(s) => s != ""
    case Composite(_) => true
  }

  /** `String(v)`. */
  function ToJsString(v: JsValue): string {
    match v
    case Undefined => "undefined"
    case Null => "null"
    case Bool(b) => if b then "true" else "false"
    case Num(n) => IntToString(n)
    case Str(s) => s
    case Composite(text) => text
  }

  // ---------------------------------------------------------------------
  // The email pattern
  // ---------------------------------------------------------------------

  /** A match of `[^@\s]+`. */
  predicate Plain(t: string) {
    |t| >= 1 && forall i :: 0 <= i < |t| ==> t[i] != '@' && !IsSpace(t[i])
  }

  /** The regex matches with its `@` at index `a` and its `\.` at index `d`. */
  predicate EmailSplitAt(s: string, a: int, d: int) {
    && 0 < a && a + 1 < d && d + 1 < |s|
    && Plain(s[..a]) && s[a] == '@' && Plain(s[a + 1..d]) && s[d] == '.' && Plain(s[d + 1..])
  }

  /** `/^[^@\s]+@[^@\s]+\.[^@\s]+$/.test(s)`, read off the pattern. */
  ghost predicate EmailPattern(s: string) {
    exists a, d :: EmailSplitAt(s, a, d)
  }

  predicate IsAt(c: char) { c == '@' }

  /**
   * The same test, decided directly: no whitespace, exactly one `@` and
   * not at the start, and a `.` in the domain with a character on each side.
   */
  predicate EmailOk(s: string) {
    && (forall k :: 0 <= k < |s| ==> !IsSpace(s[k]))
    && var at := FindFirst(s, IsAt);
       && at.Some? && at.value > 0
       && (forall k :: at.value < k < |s| ==> s[k] != '@')
       && at.value + 3 <= |s| && '.' in s[at.value + 2..|s| - 1]
  }

  lemma EmailOkIsPattern(s: string)
    ensures EmailOk(s) <==> EmailPattern(s)
  {
    if EmailOk(s) {
      var a := FindFirst(s, IsAt).value;
      var mid := s[a + 2..|s| - 1];
      var j :| 0 <= j < |mid| && mid[j] == '.';
      var d := a + 2 + j;
      assert s[d] == '.';
      assert EmailSplitAt(s, a, d);
    }
    if EmailPattern(s) {
      var a, d :| EmailSplitAt(s, a, d);
      forall k | 0 <= k < |s|
        ensures !IsSpace(s[k]) && (k != a ==> s[k] != '@')
      {
        if k < a {
          assert s[k] == s[..a][k];
        } else if a < k < d {
          assert s[k] == s[a + 1..d][k - a - 1];
        } else if d < k {
          assert s[k] == s[d + 1..][k - d - 1];
        }
      }
      var at := FindFirst(s, IsAt);
      assert at == Some(a);
      assert s[a + 2..|s| - 1][d - a - 2] == '.';
    }
  }

  // ---------------------------------------------------------------------
  // The validators
  // ---------------------------------------------------------------------

  datatype Outcome = Rejected(message: string) | Next

  datatype SignupBody = SignupBody(name: JsValue, fullName: JsValue, email: JsValue, password: JsValue)
  datatype LoginBody = LoginBody(email: JsValue, password: JsValue)

  /** `req.body.name || req.body.fullName`. */
  function SignupName(body: SignupBody): JsValue {
    if Truthy(body.name) then body.name else body.fullName
  }

  predicate NameOk(name: JsValue) {
    name.Str? && |Trim(name.s)| >= 2
  }

  predicate EmailFieldOk(email: JsValue) {
    Truthy(email) && EmailOk(ToJsString(email))
  }

  predicate SignupPasswordOk(password: JsValue) {
    Truthy(password) && |ToJsString(password)| >= 6
  }

  /** `validateSignup`: name, then email, then password; the first failure answers 400. */
  function ValidateSignup(body: SignupBody): (r: Outcome)
    ensures r == Next <==> NameOk(SignupName(body)) && EmailFieldOk(body.email) && SignupPasswordOk(body.password)
    ensures !NameOk(SignupName(body)) ==> r == Rejected("Valid name is required")
    ensures NameOk(SignupName(body)) && !EmailFieldOk(body.email) ==> r == Rejected("Valid email is required")
    ensures NameOk(SignupName(body)) && EmailFieldOk(body.email) && !SignupPasswordOk(body.password)
            ==> r == Rejected("Password must be at least 6 characters")
  {
    var name := SignupName(body);
    if !Truthy(name) || !name.Str? || |Trim(name.s)| < 2 then Rejected("Valid name is required")
    else if !Truthy(body.email) || !EmailOk(ToJsString(body.email)) then Rejected("Valid email is required")
    else if !Truthy(body.password) || |ToJsString(body.password)| < 6 then Rejected("Password must be at least 6 characters")
    else Next
  }

  /** `validateLogin`: email, then a present password. */
  function ValidateLogin(body: LoginBody): (r: Outcome)
    ensures r == Next <==> EmailFieldOk(body.email) && Truthy(body.password)
    ensures !EmailFieldOk(body.email) ==> r == Rejected("Valid email is required")
    ensures EmailFieldOk(body.email) && !Truthy(body.password) ==> r == Rejected("Password is required")
  {
    if !Truthy(body.email) || !EmailOk(ToJsString(body.email)) then Rejected("Valid email is required")
    else if !Truthy(body.password) then Rejected("Password is required")
    else Next
  }

  /** A body the signup route accepts is also accepted by the login route. */
  lemma SignupAcceptedLoginAccepted(body: SignupBody)
    requires ValidateSignup(body) == Next
    ensures ValidateLogin(LoginBody(body.email, body.password)) == Next
  {
  }
}
