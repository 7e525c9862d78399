/**
 * What the two registration forms (components/register and components/register-realuser)
 * share: the credential message chosen from the "already exists" answer, the `matchingpassword`
 * validator, the anchored password pattern, the error keys each form control carries and the
 * messages read from them, and the fields of the transmission service the forms fill in.
 *
 * Validation errors are modelled as Angular's `ValidationErrors`: the set of error keys a
 * control carries. `Validators.required` yields `required` for an empty value;
 * `Validators.pattern` yields `pattern` for a non-empty value the pattern rejects.
 */
module Credentials {
  import opened Wrappers
  import opened Socket

  // ---------------------------------------------------------------- "already exists" answers

  /** The alert service's message: whether the username and the email already exist. */
  datatype ExistingCredentials = ExistingCredentials(user: bool, email: bool)

  const BothExist := "These username and email already exists"
  const UserExists := "This username already exists"
  const EmailExists := "This email already exists"
  const NoMatch := "These credentials don't match"

  /** The credential message, by priority: both, then the username, then the email, then no match. */
  function CredentialMessage(m: ExistingCredentials): (msg: string)
    ensures m.user && m.email ==> msg == BothExist
    ensures m.user && !m.email ==> msg == UserExists
    ensures !m.user && m.email ==> msg == EmailExists
    ensures !m.user && !m.email ==> msg == NoMatch
  {
    if m.user && m.email then BothExist
    else if m.user then UserExists
    else if m.email then EmailExists
    else NoMatch
  }

  /** The four messages are distinct, so the message shown tells exactly which credentials clash. */
  lemma CredentialMessageDeterminesAnswer(a: ExistingCredentials, b: ExistingCredentials)
    ensures CredentialMessage(a) == CredentialMessage(b) <==> a == b
  {
    assert BothExist[2] != UserExists[2] && BothExist[2] != EmailExists[2] && BothExist[6] != NoMatch[6];
    assert UserExists[5] != EmailExists[5] && UserExists[2] != NoMatch[2] && EmailExists[2] != NoMatch[2];
  }

  /** Only the answer itself yields its message. */
  lemma MessageNamesAnswer(a: ExistingCredentials)
    ensures forall m :: CredentialMessage(m) == CredentialMessage(a) ==> m == a
  {
    forall m | CredentialMessage(m) == CredentialMessage(a) {
      CredentialMessageDeterminesAnswer(m, a);
    }
  }

  // ---------------------------------------------------------------- matchingpassword

  /**
   * `matchingpassword('password')` on the confirm control: no error exactly when both values
   * are equal and not empty; otherwise the `matching` error, which carries the confirm value.
   */
  function MatchingPassword(password: string, confirm: string): (error: Option<string>)
    ensures error.None? <==> password == confirm && confirm != ""
    ensures error.Some? ==> error.value == confirm
  {
    if password == confirm && confirm != "" then None else Some(confirm)
  }

  /** Whether the two values match does not depend on which of them is the confirmation. */
  lemma MatchingIsSymmetric(a: string, b: string)
    ensures MatchingPassword(a, b).None? <==> MatchingPassword(b, a).None?
  {
  }

  // ---------------------------------------------------------------- the password pattern

  /** The character classes of `(?=.*[0-9])(?=.*[A-Z])(?=.*[a-z])(?=.*[!@#$%^*&?)§(\/])[A-Za-z0-9!@#$%^*&?)§(\/]`. */
  datatype CharClass = Digit | Upper | Lower | Special | First

  const Specials := "!@#$%^*&?)§(/"

  predicate InClass(c: char, k: CharClass)
  {
    match k
    case Digit => '0' <= c <= '9'
    case Upper => 'A' <= c <= 'Z'
    case Lower => 'a' <= c <= 'z'
    case Special => c in Specials
    case First => ('0' <= c <= '9') || ('A' <= c <= 'Z') || ('a' <= c <= 'z') || c in Specials
  }

  /** The characters a JavaScript `.` does not match. */
  predicate LineTerminator(c: char)
  {
    c == '\n' || c == '\r' || c == '\U{2028}' || c == '\U{2029}'
  }

  /** `(?=.*[k])` at the start of the value: a `k` character is reached without crossing a line terminator. */
  ghost predicate Lookahead(s: string, k: CharClass)
  {
    exists i :: 0 <= i < |s| && InClass(s[i], k) && (forall j :: 0 <= j < i ==> !LineTerminator(s[j]))
  }

  /** `^[A-Za-z0-9!@#$%^*&?)§(\/].{5,}$`: the anchored body that follows the lookaheads. */
  ghost predicate AnchoredBody(s: string)
  {
    |s| >= 6 && InClass(s[0], First) && forall j :: 1 <= j < |s| ==> !LineTerminator(s[j])
  }

  /** The regular expression as `Validators.pattern` runs it, anchored at both ends. */
  ghost predicate PatternMatches(s: string)
  {
    Lookahead(s, Digit) && Lookahead(s, Upper) && Lookahead(s, Lower) && Lookahead(s, Special) && AnchoredBody(s)
  }

  /** Whether some character of `s` is of class `k`. */
  function ContainsClass(s: string, k: CharClass): (found: bool)
    ensures found <==> exists i :: 0 <= i < |s| && InClass(s[i], k)
    decreases |s|
  {
    if s == [] then false
    else if InClass(s[0], k) then true
    else
      var found := ContainsClass(s[1..], k);
      assert found ==> exists i :: 1 <= i < |s| && InClass(s[i], k) by {
        if found {
          var i :| 0 <= i < |s[1..]| && InClass(s[1..][i], k);
          assert InClass(s[i + 1], k);
        }
      }
      found
  }

  /**
   * The password policy the pattern enforces: at least 6 characters, none of them a line
   * terminator, a first character from the allowed set, and at least one digit, one upper
   * case letter, one lower case letter and one special character anywhere.
   */
  function SatisfiesPattern(s: string): (ok: bool)
    ensures ok <==> PatternMatches(s)
  {
    var body := |s| >= 6 && InClass(s[0], First) && forall j :: 1 <= j < |s| ==> !LineTerminator(s[j]);
    var ok := body && ContainsClass(s, Digit) && ContainsClass(s, Upper) && ContainsClass(s, Lower) && ContainsClass(s, Special);
    LookaheadIsContainment(s, body);
    ok
  }

  /** Once the anchored body holds, a lookahead holds exactly when the class occurs anywhere. */
  lemma LookaheadIsContainment(s: string, body: bool)
    requires body <==> AnchoredBody(s)
    ensures body ==> forall k :: Lookahead(s, k) <==> ContainsClass(s, k)
  {
    if body {
      forall k
        ensures Lookahead(s, k) <==> ContainsClass(s, k)
      {
        if ContainsClass(s, k) {
          var i :| 0 <= i < |s| && InClass(s[i], k);
          assert !LineTerminator(s[0]);
          assert forall j :: 0 <= j < i ==> !LineTerminator(s[j]);
        }
      }
    }
  }

  /**
   * The hint lists `=` among the special characters, but the pattern's special set does not
   * hold it: a password whose only special character is `=` is rejected. Every other character
   * the hint lists is accepted as special.
   */
  lemma EqualsSignIsNotSpecial()
    ensures !InClass('=', Special)
    ensures forall c :: c in "!$§%&/()?" ==> InClass(c, Special)
    ensures !SatisfiesPattern("Abcde1=")
  {
    var s := "Abcde1=";
    forall i | 0 <= i < |s|
      ensures !InClass(s[i], Special)
    {
    }
  }

  /** A value of at least six characters, without line terminators, is accepted once each class has a witness. */
  lemma AcceptedByWitnesses(s: string, digit: nat, upper: nat, lower: nat, special: nat)
    requires |s| >= 6 && InClass(s[0], First) && forall j :: 1 <= j < |s| ==> !LineTerminator(s[j])
    requires digit < |s| && upper < |s| && lower < |s| && special < |s|
    requires InClass(s[digit], Digit) && InClass(s[upper], Upper) && InClass(s[lower], Lower) && InClass(s[special], Special)
    ensures SatisfiesPattern(s)
  {
  }

  /** The same password with `!` in place of `=` is accepted. */
  lemma ExampleAccepted()
    ensures SatisfiesPattern("Abcde1!")
  {
    var s := "Abcde1!";
    assert s[0] == 'A' && s[1] == 'b' && s[5] == '1' && s[6] == '!';
    AcceptedByWitnesses(s, 5, 0, 1, 6);
  }

  // ---------------------------------------------------------------- form controls and messages

  /** The values of the four form controls. */
  datatype Form = Form(name: string, email: string, password: string, confirm: string)

  datatype Field = Name | Email | Password | ConfirmPassword

  function Value(form: Form, field: Field): string
  {
    match field
    case Name => form.name
    case Email => form.email
    case Password => form.password
    case ConfirmPassword => form.confirm
  }

  function WithValue(form: Form, field: Field, value: string): (updated: Form)
    ensures Value(updated, field) == value
    ensures forall other :: other != field ==> Value(updated, other) == Value(form, other)
  {
    match field
    case Name => form.(name := value)
    case Email => form.(email := value)
    case Password => form.(password := value)
    case ConfirmPassword => form.(confirm := value)
  }

  /**
   * The error keys of one control. Name and email are only required; the password is required
   * and must match the pattern; the confirm control is required until `ngOnInit` replaces its
   * validators with `matchingpassword`, whose error key is `matching`.
   */
  function FieldErrors(form: Form, initialised: bool, field: Field): (keys: set<string>)
    ensures keys <= {"required", "pattern", "matching"}
    ensures "required" in keys <==> Value(form, field) == "" && !(field == ConfirmPassword && initialised)
    ensures "pattern" in keys <==> field == Password && form.password != "" && !SatisfiesPattern(form.password)
    ensures "matching" in keys <==> field == ConfirmPassword && initialised && MatchingPassword(form.password, form.confirm).Some?
  {
    match field
    case Name => if form.name == "" then {"required"} else {}
    case Email => if form.email == "" then {"required"} else {}
    case Password =>
      if form.password == "" then {"required"}
      else if !SatisfiesPattern(form.password) then {"pattern"}
      else {}
    case ConfirmPassword =>
      if !initialised then (if form.confirm == "" then {"required"} else {})
      else if MatchingPassword(form.password, form.confirm).Some? then {"matching"}
      else {}
  }

  const Required := "You must enter a value"
  const PatternHint := "Please use at least 6 characters with at least 1 upper case, 1 lower case, 1 number and 1 special character! Example: ! $ § % & / ( ) = ?"
  const NotTheSame := "The password is not the same"

  /** `getPasswordErrorMessage`: `required` before `pattern`, and nothing when neither is set. */
  function PasswordMessage(errors: set<string>): string
  {
    if "required" in errors then Required
    else if "pattern" in errors then PatternHint
    else ""
  }

  /**
   * `getConfirmPasswordErrorMessage`: it looks for a `matchingpassword` key, which no validator
   * sets, and returns the same text on both of its other branches.
   */
  function ConfirmMessage(errors: set<string>): string
  {
    if "required" in errors then Required
    else if "matchingpassword" in errors then NotTheSame
    else NotTheSame
  }

  /** `getRequiredErrorMessage(field)`. */
  function RequiredMessage(errors: set<string>): string
  {
    if "required" in errors then Required else ""
  }

  /** The password message is empty exactly for an accepted password, and asks for a value exactly for an empty one. */
  lemma PasswordMessageMeaning(form: Form, initialised: bool)
    ensures PasswordMessage(FieldErrors(form, initialised, Password)) == "" <==> SatisfiesPattern(form.password)
    ensures PasswordMessage(FieldErrors(form, initialised, Password)) == Required <==> form.password == ""
    ensures PasswordMessage(FieldErrors(form, initialised, Password)) == PatternHint <==> form.password != "" && !SatisfiesPattern(form.password)
  {
    assert |Required| == 22 && |PatternHint| > 22;
  }

  /**
   * The confirm message asks for a value only for an empty confirmation before `ngOnInit`;
   * otherwise it is "not the same", whether or not the passwords match.
   */
  lemma ConfirmMessageIgnoresMatch(form: Form, initialised: bool)
    ensures ConfirmMessage(FieldErrors(form, initialised, ConfirmPassword)) == Required <==> !initialised && form.confirm == ""
    ensures ConfirmMessage(FieldErrors(form, initialised, ConfirmPassword)) == NotTheSame <==> initialised || form.confirm != ""
  {
    assert Required[0] == 'Y' && NotTheSame[0] == 'T';
  }

  /** After `ngOnInit` the confirm field never asks for a value; every other field does exactly when empty. */
  lemma RequiredMessageMeaning(form: Form, initialised: bool, field: Field)
    ensures RequiredMessage(FieldErrors(form, initialised, field)) == Required <==> Value(form, field) == "" && !(field == ConfirmPassword && initialised)
    ensures RequiredMessage(FieldErrors(form, initialised, field)) != Required ==> RequiredMessage(FieldErrors(form, initialised, field)) == ""
  {
  }

  // ---------------------------------------------------------------- the transmission service

  /** What the transmission service is asked to send. */
  datatype Transmission =
    | ODRegister(device: DeviceInfo)   // transmitODRegister(data)
    | ODGuestToRealRegister            // transmitODGuestToRealRegister()

  /** The placeholder device data the web registration sends. */
  const PlaceholderDevice := DeviceInfo("deviceAddress", "deviceOS", "deviceVersion", "deviceModel")

  /** The fields of the transmission service the forms fill in, and what it was asked to send. */
  class TransmissionService {
    var registerName: Option<string>
    var registerEmail: Option<string>
    var registerPassword: Option<string>
    var registerIsGuest: Option<bool>
    var transmissions: seq<Transmission>

    constructor ()
      ensures registerName == None && registerEmail == None && registerPassword == None && registerIsGuest == None
      ensures transmissions == []
    {
      registerName, registerEmail, registerPassword, registerIsGuest := None, None, None, None;
      transmissions := [];
    }

    method Transmit(t: Transmission)
      modifies this`transmissions
      ensures transmissions == old(transmissions) + [t]
    {
      transmissions := transmissions + [t];
    }
  }
}
