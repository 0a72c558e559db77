/**
 * The login form: one hard-coded credential pair, checked after a simulated
 * delay. Submitting raises the loading flag and clears the error at once; the
 * delayed check then either signs the user in or shows a fixed error message.
 */
module Login {
  import opened Wrappers

  const DemoEmail: string := "clinician@oncovision.ai"
  const DemoPassword: string := "password2026"
  const InvalidCredentialsMessage: string :=
    "Invalid clinical credentials. Please check your email and password."

  /** The credential check: exact, case-sensitive equality with the one demo pair; blank fields never pass. */
  function Accepts(email: string, password: string): (ok: bool)
    ensures ok ==> email != "" && password != ""
    ensures ok ==> |email| == |DemoEmail| && |password| == |DemoPassword|
  {
    email == DemoEmail && password == DemoPassword
  }

  /** Exactly one pair is accepted; changing either half of it is rejected. */
  lemma OnlyDemoPairAccepted(email: string, password: string)
    ensures Accepts(email, password) <==> email == DemoEmail && password == DemoPassword
    ensures Accepts(DemoEmail, DemoPassword)
    ensures password != DemoPassword ==> !Accepts(email, password)
    ensures email != DemoEmail ==> !Accepts(email, password)
  {
  }

  /** What the delayed check sees: the field values of the moment the form was submitted. */
  datatype Credentials = Credentials(email: string, password: string)

  class LoginForm {
    var email: string
    var password: string
    var error: string
    var loading: bool
    /** The scheduled check, with the values it captured; none when nothing is pending. */
    var pending: Option<Credentials>

    /** A pending check always runs with the loading flag up, and the flag up means no error is shown. */
    ghost predicate Valid()
      reads this
    {
      && (pending.Some? ==> loading)
      && (loading ==> error == "")
    }

    constructor ()
      ensures Valid()
      ensures email == "" && password == "" && error == "" && !loading && pending.None?
    {
      email, password, error := "", "", "";
      loading := false;
      pending := None;
    }

    /** The submit button is greyed out while loading. */
    function SubmitDisabled(): bool
      reads this
    {
      loading
    }

    method EditEmail(v: string)
      modifies this`email
      ensures email == v
    {
      email := v;
    }

    method EditPassword(v: string)
      modifies this`password
      ensures password == v
    {
      password := v;
    }

    /** Submitting: loading on, error cleared, and the check scheduled with the current values. */
    method HandleSubmit()
      requires Valid() && !SubmitDisabled()
      modifies this`loading, this`error, this`pending
      ensures Valid()
      ensures loading && error == "" && SubmitDisabled()
      ensures pending == Some(Credentials(email, password))
    {
      loading := true;
      error := "";
      pending := Some(Credentials(email, password));
    }

    /**
     * The delayed check. On the demo pair it reports success (the caller then
     * signs the user in) and the form stays loading; otherwise it shows the fixed
     * message and lowers the loading flag.
     */
    method ResolveSubmit() returns (signedIn: bool)
      requires Valid() && pending.Some?
      modifies this`loading, this`error, this`pending
      ensures Valid()
      ensures pending.None?
      ensures signedIn == Accepts(old(pending).value.email, old(pending).value.password)
      ensures signedIn ==> loading && error == ""
      ensures !signedIn ==> !loading && error == InvalidCredentialsMessage
    {
      var submitted := pending.value;
      pending := None;
      if submitted.email == DemoEmail && submitted.password == DemoPassword {
        signedIn := true;
      } else {
        error := InvalidCredentialsMessage;
        loading := false;
        signedIn := false;
      }
    }
  }
}
