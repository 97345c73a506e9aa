/**
 * The sign-in / sign-up form of src/components/AuthForm.tsx. The browser's own
 * validation of the `required` and `type="email"` inputs stands between the
 * submit button and `handleSubmit`; a valid submit starts loading and, when the
 * half-second timer fires, calls exactly one of the two callbacks. The calls
 * made are recorded in `calls`.
 */
module AuthFormView {
  import opened Wrappers

  datatype Mode = SignInMode | SignUpMode

  datatype AuthCall = SignInCall(email: string, password: string)
                    | SignUpCall(email: string, password: string, businessName: string)

  const MissingFields: string := "Por favor completa todos los campos"
  const MissingBusinessName: string := "Por favor ingresa el nombre de tu negocio"

  /** The error `handleSubmit` reports, if any. */
  function SubmitError(mode: Mode, email: string, password: string, businessName: string): (r: Option<string>)
    ensures r.None? <==> email != "" && password != "" && (mode == SignUpMode ==> businessName != "")
    ensures r.Some? ==> r.value == MissingFields || r.value == MissingBusinessName
  {
    if email == "" || password == "" then Some(MissingFields)
    else if mode == SignUpMode && businessName == "" then Some(MissingBusinessName)
    else None
  }

  /** The callback a valid submit calls: `onSignIn` in sign-in mode, `onSignUp` with the business name otherwise. */
  function CallFor(mode: Mode, email: string, password: string, businessName: string): (c: AuthCall)
    ensures c.SignInCall? <==> mode == SignInMode
    ensures c.email == email && c.password == password
    ensures c.SignUpCall? ==> c.businessName == businessName
  {
    if mode == SignInMode then SignInCall(email, password) else SignUpCall(email, password, businessName)
  }

  /**
   * The browser's constraint validation of the form: every rendered `required`
   * input is filled (the business name is rendered only when signing up) and the
   * `type="email"` input holds what the browser takes for an address, `isEmail`.
   */
  predicate BrowserAccepts(mode: Mode, email: string, password: string, businessName: string, isEmail: string -> bool) {
    email != "" && isEmail(email) && password != "" && (mode == SignUpMode ==> businessName != "")
  }

  function Toggled(mode: Mode): (m: Mode)
    ensures m != mode
  {
    if mode == SignInMode then SignUpMode else SignInMode
  }

  class AuthForm {
    var mode: Mode
    var email: string
    var password: string
    var businessName: string
    var loading: bool
    /** The call the running timer will make. */
    var pending: Option<AuthCall>
    var calls: seq<AuthCall>

    /** The form is loading exactly while a call waits for its timer. */
    predicate Valid()
      reads this
    {
      loading <==> pending.Some?
    }

    constructor ()
      ensures Valid() && mode == SignInMode && email == "" && password == "" && businessName == ""
      ensures !loading && calls == []
    {
      mode := SignInMode;
      email, password, businessName := "", "", "";
      loading := false;
      pending := None;
      calls := [];
    }

    method Edit(email: string, password: string, businessName: string)
      requires Valid()
      modifies this
      ensures Valid()
      ensures this.email == email && this.password == password && this.businessName == businessName
      ensures mode == old(mode) && loading == old(loading) && pending == old(pending) && calls == old(calls)
    {
      this.email, this.password, this.businessName := email, password, businessName;
    }

    /**
     * `handleSubmit`, reachable only while the submit button is enabled (not
     * loading). An invalid form reports its error and changes nothing; a valid
     * one starts loading with the call for the current mode.
     */
    method Submit() returns (error: Option<string>)
      requires Valid() && !loading
      modifies this
      ensures Valid()
      ensures error == SubmitError(old(mode), old(email), old(password), old(businessName))
      ensures error.Some? ==> !loading && pending == old(pending) && calls == old(calls)
      ensures error.None? ==> loading && pending == Some(CallFor(old(mode), old(email), old(password), old(businessName)))
      ensures calls == old(calls) && mode == old(mode) && email == old(email) && password == old(password)
      ensures businessName == old(businessName)
    {
      error := SubmitError(mode, email, password, businessName);
      if error.Some? {
        return;
      }
      loading := true;
      pending := Some(CallFor(mode, email, password, businessName));
    }

    /**
     * The enabled submit button is pressed (or Enter typed in a field). A form
     * the browser's validation rejects never reaches `handleSubmit`: the browser
     * shows its own message and nothing changes. A form it accepts runs
     * `handleSubmit`, whose error toasts then cannot fire, so it starts loading
     * with the call for the current mode.
     */
    method PressSubmit(isEmail: string -> bool) returns (submitted: bool)
      requires Valid() && !loading
      modifies this
      ensures Valid()
      ensures submitted == BrowserAccepts(old(mode), old(email), old(password), old(businessName), isEmail)
      ensures submitted ==> SubmitError(old(mode), old(email), old(password), old(businessName)).None?
      ensures !submitted ==> !loading && pending == old(pending)
      ensures submitted ==> loading && pending == Some(CallFor(old(mode), old(email), old(password), old(businessName)))
      ensures calls == old(calls) && mode == old(mode) && email == old(email) && password == old(password)
      ensures businessName == old(businessName)
    {
      submitted := BrowserAccepts(mode, email, password, businessName, isEmail);
      if !submitted {
        return;
      }
      var error := Submit();
      assert error.None?;
    }

    /** The timer fires: the pending callback is called once and loading ends. */
    method Settle()
      requires Valid() && loading
      modifies this
      ensures Valid() && !loading
      ensures calls == old(calls) + [old(pending).value]
      ensures mode == old(mode) && email == old(email) && password == old(password) && businessName == old(businessName)
    {
      calls := calls + [pending.value];
      pending := None;
      loading := false;
    }

    /** The link under the button flips between signing in and signing up. */
    method ToggleMode()
      requires Valid()
      modifies this
      ensures Valid() && mode == Toggled(old(mode))
      ensures loading == old(loading) && pending == old(pending) && calls == old(calls)
      ensures email == old(email) && password == old(password) && businessName == old(businessName)
    {
      mode := Toggled(mode);
    }
  }

  /**
   * Toggling twice restores the mode; and a call is made only with the fields a
   * valid form held: a sign-up call always carries a business name.
   */
  lemma ToggleAndCalls(mode: Mode, email: string, password: string, businessName: string)
    ensures Toggled(Toggled(mode)) == mode
    ensures SubmitError(mode, email, password, businessName).None? ==>
      var c := CallFor(mode, email, password, businessName);
      c.email != "" && c.password != "" && (c.SignUpCall? ==> c.businessName != "")
  {
  }
}
