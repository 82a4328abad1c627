/**
 * The sign-in / sign-up page: client-side validation of the form, the
 * payload sent to the server, and the submit handler's loading, error and
 * success state around the awaited request.
 *
 * The handler is split at its `await`: `Begin` is what runs before the
 * request is sent and `Finish` is what runs when it settles, so a second
 * submit arriving in between meets `loading == true`.
 */
module AuthPage {
  import opened Wrappers
  import opened Text
  import opened Validation

  datatype Form = Form(firstName: string, lastName: string, email: string, password: string, agree: bool)

  datatype Mode = Login | Signup

  /** `validate()`: the first failing check's message, or "" when every check passes. */
  function Validate(form: Form, mode: Mode): (msg: string)
    ensures msg == "" <==> ClientValid(form, mode)
  {
    var email := Trim(form.email);
    if email == "" then "Email is required"
    else if !EmailOk(email) then "Enter a valid email"
    else if form.password == "" then "Password is required"
    else if mode == Signup && Trim(form.firstName) == "" then "First name is required"
    else if mode == Signup && Trim(form.lastName) == "" then "Last name is required"
    else if mode == Signup && !form.agree then "You must agree to the terms"
    else ""
  }

  /** What the checks demand, all at once; login mode never looks at the name fields or the checkbox. */
  predicate ClientValid(form: Form, mode: Mode) {
    && EmailOk(Trim(form.email))
    && form.password != ""
    && (mode == Signup ==> Trim(form.firstName) != "" && Trim(form.lastName) != "" && form.agree)
  }

  /** Login mode never looks at the name fields or the checkbox. */
  lemma LoginIgnoresNames(form: Form, first: string, last: string, agree: bool)
    ensures Validate(form, Login) == Validate(form.(firstName := first, lastName := last, agree := agree), Login)
  {
  }

  /** The email checks come first: a missing or malformed email is reported before anything else. */
  lemma ValidateEmailFirst(form: Form, mode: Mode)
    ensures Validate(form, mode) == "Email is required" <==> Trim(form.email) == ""
    ensures Validate(form, mode) == "Enter a valid email" <==> Trim(form.email) != "" && !EmailOk(Trim(form.email))
  {
    var email := Trim(form.email);
    if email == "" {
      assert Validate(form, mode) == "Email is required";
    } else if !EmailOk(email) {
      assert Validate(form, mode) == "Enter a valid email";
    } else {
      assert |Validate(form, mode)| != 17 && |Validate(form, mode)| != 19;
    }
  }

  /** The password is checked next, then (signing up) the names and the checkbox. */
  lemma ValidateThenPassword(form: Form, mode: Mode)
    requires EmailOk(Trim(form.email))
    ensures Validate(form, mode) == "Password is required" <==> form.password == ""
    ensures form.password != "" && mode == Signup ==>
              Validate(form, mode) == (if Trim(form.firstName) == "" then "First name is required"
                                       else if Trim(form.lastName) == "" then "Last name is required"
                                       else if !form.agree then "You must agree to the terms" else "")
  {
    assert Trim(form.email) != "";
  }

  /** The request body the page sends. */
  datatype Payload =
    | LoginPayload(email: string, password: string)
    | SignupPayload(fullName: string, email: string, password: string)

  /** `` `${first.trim()} ${last.trim()}`.trim() ``. */
  function FullName(first: string, last: string): string {
    Trim(Trim(first) + " " + Trim(last))
  }

  function PayloadFor(form: Form, mode: Mode): Payload {
    var email := Lower(Trim(form.email));
    if mode == Login then LoginPayload(email, form.password)
    else SignupPayload(FullName(form.firstName, form.lastName), email, form.password)
  }

  /** With both names present the full name is them joined by one space, with nothing else trimmed. */
  lemma FullNameJoins(first: string, last: string)
    requires Trim(first) != "" && Trim(last) != ""
    ensures FullName(first, last) == Trim(first) + " " + Trim(last)
  {
    var a, b := Trim(first), Trim(last);
    var s := a + " " + b;
    assert s[0] == a[0] && s[|s| - 1] == b[|b| - 1];
    TrimUnchanged(s);
  }

  lemma TrimUnchanged(s: string)
    requires s != [] && !IsSpace(s[0]) && !IsSpace(s[|s| - 1])
    ensures Trim(s) == s
  {
  }

  /** `res?.status === 200 || res?.status === 201`. */
  predicate SuccessStatus(status: Option<int>) {
    status == Some(200) || status == Some(201)
  }

  // ---------------------------------------------------------------------
  // Agreement with the server's validators
  // ---------------------------------------------------------------------

  lemma LowerKeepsEmailShape(s: string)
    requires EmailOk(s)
    ensures EmailOk(Lower(s))
  {
    EmailOkIsPattern(s);
    var a, d :| EmailSplitAt(s, a, d);
    var t := Lower(s);
    LowerSlice(s, 0, a);
    LowerSlice(s, a + 1, d);
    LowerSlice(s, d + 1, |s|);
    assert t[..a] == Lower(s[..a]) && t[a + 1..d] == Lower(s[a + 1..d]) && t[d + 1..] == Lower(s[d + 1..]) by {
      assert s[..a] == s[0..a] && t[..a] == t[0..a];
      assert s[d + 1..] == s[d + 1..|s|] && t[d + 1..] == t[d + 1..|s|];
    }
    LowerKeepsPlain(s[..a]);
    LowerKeepsPlain(s[a + 1..d]);
    LowerKeepsPlain(s[d + 1..]);
    assert EmailSplitAt(t, a, d);
    EmailOkIsPattern(t);
  }

  lemma LowerKeepsPlain(s: string)
    requires Plain(s)
    ensures Plain(Lower(s))
  {
    forall i | 0 <= i < |s| ensures Lower(s)[i] != '@' && !IsSpace(Lower(s)[i]) {
      assert Lower(s)[i] == LowerChar(s[i]);
    }
  }

  /** A login the page accepts is accepted by the server's login validator. */
  lemma ClientValidLoginPassesServer(form: Form)
    requires Validate(form, Login) == ""
    ensures var p := PayloadFor(form, Login);
            ValidateLogin(LoginBody(Str(p.email), Str(p.password))) == Next
  {
    LowerKeepsEmailShape(Trim(form.email));
  }

  /**
   * A sign-up the page accepts passes the server's name and email checks,
   * so the server accepts it exactly when the password has at least six
   * characters, a rule the page itself never checks, and otherwise answers
   * with the password message.
   */
  lemma ClientValidSignupServerIff(form: Form)
    requires Validate(form, Signup) == ""
    ensures var p := PayloadFor(form, Signup);
            ValidateSignup(SignupBody(Undefined, Str(p.fullName), Str(p.email), Str(p.password)))
              == if |form.password| >= 6 then Next else Rejected("Password must be at least 6 characters")
  {
    PasswordOkIffLength(form.password);
    assert ClientValid(form, Signup);
    var name, email := FullName(form.firstName, form.lastName), Lower(Trim(form.email));
    assert PayloadFor(form, Signup) == SignupPayload(name, email, form.password);
    SignupNameOk(form.firstName, form.lastName);
    SignupEmailOk(form.email);
    var body := SignupBody(Undefined, Str(name), Str(email), Str(form.password));
    assert SignupName(body) == Str(name);
  }

  lemma PasswordOkIffLength(password: string)
    ensures SignupPasswordOk(Str(password)) <==> |password| >= 6
  {
  }

  /** Two present names give a full name the server's name check accepts. */
  lemma SignupNameOk(first: string, last: string)
    requires Trim(first) != "" && Trim(last) != ""
    ensures NameOk(Str(FullName(first, last)))
  {
    var a, b := Trim(first), Trim(last);
    JoinedStaysTrimmed(a, b);
    FullNameJoins(first, last);
  }

  lemma JoinedStaysTrimmed(a: string, b: string)
    requires a != [] && b != [] && !IsSpace(a[0]) && !IsSpace(b[|b| - 1])
    ensures |Trim(a + " " + b)| >= 2
  {
    var s := a + " " + b;
    assert s[0] == a[0] && s[|s| - 1] == b[|b| - 1];
    TrimUnchanged(s);
  }

  /** An email the page accepts, lower-cased, passes the server's email check. */
  lemma SignupEmailOk(email: string)
    requires EmailOk(Trim(email))
    ensures EmailFieldOk(Str(Lower(Trim(email))))
  {
    var e := Trim(email);
    var l := Lower(e);
    LowerKeepsEmailShape(e);
    assert |l| == |e| && e != "";
    assert Truthy(Str(l)) && ToJsString(Str(l)) == l;
  }

  const ShortPasswordForm := Form("Asha", "Rao", "a@b.in", "abc", true)

  /** A concrete sign-up the page sends but the server refuses. */
  lemma ShortPasswordSignupRefused()
    ensures Validate(ShortPasswordForm, Signup) == ""
    ensures var p := PayloadFor(ShortPasswordForm, Signup);
            ValidateSignup(SignupBody(Undefined, Str(p.fullName), Str(p.email), Str(p.password)))
              == Rejected("Password must be at least 6 characters")
  {
    ShortPasswordFormValid();
    ClientValidSignupServerIff(ShortPasswordForm);
  }

  // Helpers for ShortPasswordSignupRefused: facts about its one example form.

  lemma ShortPasswordFormValid()
    ensures Validate(ShortPasswordForm, Signup) == ""
  {
    ExampleEmailOk();
    ExampleNamesPresent();
    assert ClientValid(ShortPasswordForm, Signup);
  }

  /** Helper for ShortPasswordFormValid. */
  lemma ExampleNamesPresent()
    ensures Trim("Asha") != "" && Trim("Rao") != ""
  {
    TrimWithoutSpace("Asha");
    TrimWithoutSpace("Rao");
  }

  /** Helper for ShortPasswordFormValid. */
  lemma ExampleEmailOk()
    ensures EmailOk(Trim("a@b.in"))
  {
    ExampleEmailSplits();
    EmailOkIsPattern("a@b.in");
    ExampleEmailHasNoSpace();
  }

  /** Helper for ExampleEmailOk. */
  lemma ExampleEmailSplits()
    ensures EmailSplitAt("a@b.in", 1, 3)
  {
    var e := "a@b.in";
    assert e[..1] == "a" && e[2..3] == "b" && e[4..] == "in";
  }

  /** Helper for ExampleEmailOk. */
  lemma ExampleEmailHasNoSpace()
    ensures Trim("a@b.in") == "a@b.in"
  {
    var e := "a@b.in";
    forall k | 0 <= k < |e| ensures !IsSpace(e[k]) {
      assert '!' <= e[k] <= '~';
    }
    TrimWithoutSpace(e);
  }

  // ---------------------------------------------------------------------
  // The submit handler
  // ---------------------------------------------------------------------

  /** How the awaited request settled. */
  datatype Exchange<U> =
    | Responded(status: Option<int>, message: Option<string>, user: Option<U>)
    | Threw(responseMessage: Option<string>, message: Option<string>)

  function OrElse(s: Option<string>, dflt: string): string {
    if s.Some? && s.value != "" then s.value else dflt
  }

  class AuthPage<U> {
    var loading: bool
    var error: string
    var success: string
    var user: Option<U>

    constructor ()
      ensures !loading && error == "" && success == "" && user == None
    {
      loading, error, success, user := false, "", "", None;
    }

    /**
     * The handler up to the request: ignored while loading; otherwise the
     * messages are cleared and either the validation message is shown and
     * nothing is sent, or loading starts and the payload is sent.
     */
    method Begin(form: Form, mode: Mode) returns (request: Option<Payload>)
      modifies this
      ensures old(loading) ==> request == None && loading && error == old(error) && success == old(success)
      ensures !old(loading) && Validate(form, mode) != "" ==>
                request == None && !loading && error == Validate(form, mode) && success == ""
      ensures !old(loading) && Validate(form, mode) == "" ==>
                request == Some(PayloadFor(form, mode)) && loading && error == "" && success == ""
      ensures user == old(user)
    {
      if loading {
        return None;
      }
      error, success := "", "";
      var v := Validate(form, mode);
      if v != "" {
        error := v;
        return None;
      }
      loading := true;
      request := Some(PayloadFor(form, mode));
    }

    /**
     * The handler after the request settles: on a 200 or 201 the user is
     * set, the success message shown and `next` opened; otherwise the
     * error message is the server's, else the mode's fallback. Loading ends
     * either way.
     */
    method Finish(mode: Mode, exchange: Exchange<U>, next: string) returns (navigateTo: Option<string>)
      modifies this
      ensures !loading
      ensures navigateTo.Some? <==> exchange.Responded? && SuccessStatus(exchange.status)
      ensures navigateTo.Some? ==>
                navigateTo.value == (if next == "" then "/" else next)
                && user == exchange.user && error == old(error)
                && success == (if mode == Login then "Logged in successfully" else "Account created! You are now logged in.")
      ensures exchange.Responded? && !SuccessStatus(exchange.status) ==>
                user == old(user) && success == old(success)
                && error == OrElse(exchange.message, if mode == Login then "Login failed" else "Signup failed")
      ensures exchange.Threw? ==>
                user == old(user) && success == old(success)
                && error == OrElse(exchange.responseMessage, OrElse(exchange.message, "Request failed"))
    {
      navigateTo := None;
      match exchange {
        case Responded(status, message, u) =>
          if status == Some(200) || status == Some(201) {
            user := u;
            success := if mode == Login then "Logged in successfully" else "Account created! You are now logged in.";
            navigateTo := Some(if next == "" then "/" else next);
          } else {
            error := OrElse(message, if mode == Login then "Login failed" else "Signup failed");
          }
        case Threw(responseMessage, message) =>
          error := OrElse(responseMessage, OrElse(message, "Request failed"));
      }
      loading := false;
    }
  }
}
