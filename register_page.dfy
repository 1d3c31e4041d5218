/**
 * The registration page's submit handler: three checks in a fixed order, a
 * direct `signUp` call to the provider, and the messages shown for each answer.
 */
module RegisterPage {
  import opened Wrappers
  import opened JsString
  import opened Provider
  import opened Router

  const MinPasswordLength: nat := 6
  const RequiredText: string := "Email and password are required."
  /** The template `Password must be at least ${minPasswordLength} characters.` with the constant filled in. */
  const TooShortText: string := "Password must be at least 6 characters."
  const MismatchText: string := "Passwords do not match."
  const CouldNotRegisterText: string := "Could not register. Try again."
  const RedirectingText: string := "Registered \U{2014} redirecting to dashboard..."
  const CheckEmailText: string :=
    "Registration successful. Check your email for a confirmation link to complete sign up."
  const UnexpectedText: string := "Unexpected error during registration"
  const RedirectDelayMs: nat := 700

  /** Every character is white space (the empty string included). */
  predicate Blank(s: string) {
    forall i :: 0 <= i < |s| ==> IsWhiteSpace(s[i])
  }

  /** The checks of the form, in the order they run. */
  datatype Problem = MissingCredentials | PasswordTooShort | PasswordMismatch

  /** The text shown for each failed check. */
  function ProblemText(p: Problem): string {
    match p
    case MissingCredentials => RequiredText
    case PasswordTooShort => TooShortText
    case PasswordMismatch => MismatchText
  }

  /**
   * The first failing check, or `None` when all pass. The checks run in order:
   * an email that is blank after trimming or an empty password, then a password shorter
   * than six UTF-16 code units, then a confirmation that differs from the password.
   */
  function Validate(email: string, password: string, confirm: string): (r: Option<Problem>)
    ensures r == Some(MissingCredentials) <==> Blank(email) || password == []
    ensures r == Some(PasswordTooShort) <==>
      !Blank(email) && password != [] && Utf16Length(password) < MinPasswordLength
    ensures r == Some(PasswordMismatch) <==>
      !Blank(email) && Utf16Length(password) >= MinPasswordLength && password != confirm
    ensures r.None? <==>
      !Blank(email) && Utf16Length(password) >= MinPasswordLength && password == confirm
  {
    TrimEmptyIff(email);
    Utf16LengthBounds(password);
    if Trim(email) == [] || password == [] then Some(MissingCredentials)
    else if Utf16Length(password) < MinPasswordLength then Some(PasswordTooShort)
    else if password != confirm then Some(PasswordMismatch)
    else None
  }

  /** A password of three characters outside the Basic Multilingual Plane is six code units long and passes. */
  lemma AstralPasswordIsLongEnough()
    ensures Validate("a@b.c", "\U{1F600}\U{1F600}\U{1F600}", "\U{1F600}\U{1F600}\U{1F600}").None?
  {}

  /** The `full_name` profile attribute: the trimmed name when one was typed, otherwise left out. */
  function FullNameAttribute(fullName: string): (r: Option<string>)
    ensures r.Some? ==> |r.value| <= |fullName|
  {
    if fullName != [] then Some(Trim(fullName)) else None
  }

  /**
   * The attribute is omitted only for an empty name; a name of white space alone is sent
   * as the empty string; any other name is sent without surrounding white space.
   */
  lemma FullNameAttributeShape(fullName: string)
    ensures var r := FullNameAttribute(fullName);
      (r.None? <==> fullName == []) &&
      (r.Some? ==> (r.value == [] <==> Blank(fullName))) &&
      (r.Some? && r.value != [] ==> !IsWhiteSpace(r.value[0]) && !IsWhiteSpace(r.value[|r.value| - 1]))
  {
    TrimEmptyIff(fullName);
    TrimHasNoOuterWhiteSpace(fullName);
  }

  /** A failure message for the error panel, or a success message and whether to go on to the dashboard. */
  datatype Notice = ErrorNotice(message: string) | SuccessNotice(message: string, redirect: bool)

  /**
   * What the page shows once `signUp` has settled. A returned error always gives a
   * non-empty message (its own, or the default); a thrown exception gives its own
   * message even when that is empty, and the default only when it has none.
   */
  function SignUpNotice(answer: AuthAnswer): (n: Notice)
    ensures n.ErrorNotice? <==> answer.Threw? || answer.error.Some?
    ensures answer.Answered? && answer.error.Some? && answer.error.value.message != [] ==>
      n == ErrorNotice(answer.error.value.message)
    ensures answer.Answered? && answer.error.Some? && answer.error.value.message == [] ==>
      n == ErrorNotice(CouldNotRegisterText)
    ensures answer.Answered? && answer.error.Some? ==> n.message != []
    ensures answer.Threw? && answer.message.Some? ==> n.message == answer.message.value
    ensures answer.Threw? && answer.message.None? ==> n.message == UnexpectedText
    ensures n.SuccessNotice? ==> (n.redirect <==> answer.session.Some?)
    ensures n.SuccessNotice? ==> n.message == (if answer.session.Some? then RedirectingText else CheckEmailText)
  {
    match answer
    case Threw(message) => ErrorNotice(if message.Some? then message.value else UnexpectedText)
    case Answered(_, session, error) =>
      if error.Some? then
        ErrorNotice(if error.value.message != [] then error.value.message else CouldNotRegisterText)
      else if session.Some? then SuccessNotice(RedirectingText, true)
      else SuccessNotice(CheckEmailText, false)
  }

  /** Once `signUp` has settled, some message is displayed unless the exception thrown had an empty message. */
  lemma SettledSignUpShowsMessage(answer: AuthAnswer)
    ensures var n := SignUpNotice(answer);
      n.message != [] <==> !(answer.Threw? && answer.message == Some(""))
  {}

  /** The registration form: its fields, its flags and messages, and the navigations it requests. */
  class RegisterForm {
    const client: SupabaseClient
    var fullName: string
    var email: string
    var password: string
    var confirm: string
    var isLoading: bool
    var errorMsg: Option<string>
    var successMsg: Option<string>
    var navigations: seq<Navigation>

    constructor (client: SupabaseClient)
      ensures this.client == client
      ensures fullName == [] && email == [] && password == [] && confirm == []
      ensures !isLoading && errorMsg.None? && successMsg.None? && navigations == []
    {
      this.client := client;
      fullName, email, password, confirm := "", "", "", "";
      isLoading := false;
      errorMsg, successMsg := None, None;
      navigations := [];
    }

    /** The messages and navigations on screen are those of notice `n`, on top of the navigations `before`. */
    ghost predicate Displays(n: Notice, before: seq<Navigation>)
      reads this
    {
      match n
      case ErrorNotice(message) =>
        errorMsg == Some(message) && successMsg.None? && navigations == before
      case SuccessNotice(message, redirect) =>
        successMsg == Some(message) && errorMsg.None? &&
        navigations == before + if redirect then [PushAfter(DashboardRoute, RedirectDelayMs)] else []
    }

    /**
     * `handleSubmit`. Both messages are cleared first. A failed check (`Validate` runs the
     * three checks of the handler in its order) shows its message
     * and stops without calling the provider or touching `isLoading`. Otherwise `signUp`
     * is called with the email as typed (untrimmed), and the settled answer's notice is shown;
     * `isLoading` is false afterwards on every path that reached the provider.
     */
    method HandleSubmit(answer: AuthAnswer)
      modifies this`isLoading, this`errorMsg, this`successMsg, this`navigations, client`calls
      ensures Validate(email, password, confirm).Some? ==>
        errorMsg == Some(ProblemText(Validate(email, password, confirm).value)) && successMsg.None? &&
        isLoading == old(isLoading) && client.calls == old(client.calls) && navigations == old(navigations)
      ensures Validate(email, password, confirm).None? ==>
        client.calls == old(client.calls) + [Call.SignUp(email, password, FullNameAttribute(fullName))] &&
        !isLoading && Displays(SignUpNotice(answer), old(navigations))
    {
      errorMsg := None;
      successMsg := None;

      var problem := Validate(email, password, confirm);
      if problem.Some? {
        errorMsg := Some(ProblemText(problem.value));
        return;
      }
      SignUpAndReport(answer);
    }

    /** The `try`/`finally` part of `handleSubmit`: the provider call and the handling of its answer. */
    method SignUpAndReport(answer: AuthAnswer)
      requires errorMsg.None? && successMsg.None?
      modifies this`isLoading, this`errorMsg, this`successMsg, this`navigations, client`calls
      ensures client.calls == old(client.calls) + [Call.SignUp(email, password, FullNameAttribute(fullName))]
      ensures !isLoading && Displays(SignUpNotice(answer), old(navigations))
    {
      isLoading := true;
      client.Invoke(Call.SignUp(email, password, FullNameAttribute(fullName)));
      match answer {
        case Threw(message) =>
          errorMsg := Some(if message.Some? then message.value else UnexpectedText);
        case Answered(_, session, error) =>
          if error.Some? {
            errorMsg := Some(if error.value.message != [] then error.value.message else CouldNotRegisterText);
          } else if session.Some? {
            successMsg := Some(RedirectingText);
            navigations := navigations + [PushAfter(DashboardRoute, RedirectDelayMs)];
          } else {
            successMsg := Some(CheckEmailText);
          }
      }
      isLoading := false;
    }
  }
}
