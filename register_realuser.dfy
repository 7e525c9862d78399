/**
 * The form that turns a guest into a registered user (components/register-realuser): the same
 * credential subscription, validators and error messages as the registration form, and
 * `registerAsRealuser`, which hands the entered credentials to the transmission service and
 * asks it to convert the guest, on every platform.
 */
module RegisterRealuser {
  import opened Wrappers
  import opened Domain
  import opened Credentials

  class RegisterRealuserComponent {
    var form: Form
    /** Whether `ngOnInit` has replaced the confirm control's validators with `matchingpassword`. */
    var initialised: bool
    var registerName: Option<string>
    var registerEmail: Option<string>
    var registerPassword: Option<string>
    var existingUser: Option<bool>
    var existingEmail: Option<bool>
    var wrongCred: Option<bool>
    var errorCredentialMessage: Option<string>
    /** The last "already exists" answer the subscription received. */
    ghost var answered: Option<ExistingCredentials>
    const transmission: TransmissionService

    /** Every control starts empty; the component's own fields are undefined. */
    constructor (transmission: TransmissionService)
      ensures this.transmission == transmission && form == Form("", "", "", "") && !initialised
      ensures registerName == None && registerEmail == None && registerPassword == None
      ensures existingUser == None && existingEmail == None && wrongCred == None && errorCredentialMessage == None
      ensures answered == None && ShowsLastAnswer()
    {
      this.transmission := transmission;
      form := Form("", "", "", "");
      initialised := false;
      registerName, registerEmail, registerPassword := None, None, None;
      existingUser, existingEmail, wrongCred, errorCredentialMessage := None, None, None, None;
      answered := None;
    }

    /** The visitor types into one control. */
    method SetValue(field: Field, value: string)
      modifies this`form
      ensures form == WithValue(old(form), field, value)
    {
      form := WithValue(form, field, value);
    }

    /** The subscription to the "already exists" answers: the flags are copied and the credentials are always marked wrong. */
    method OnExistingCredentials(m: ExistingCredentials)
      modifies this`existingUser, this`existingEmail, this`wrongCred, this`errorCredentialMessage, this`answered
      ensures existingUser == Some(m.user) && existingEmail == Some(m.email)
      ensures wrongCred == Some(true)
      ensures errorCredentialMessage == Some(CredentialMessage(m))
      ensures answered == Some(m) && ShowsLastAnswer()
    {
      existingUser := Some(m.user);
      existingEmail := Some(m.email);
      wrongCred := Some(true);
      errorCredentialMessage := Some(CredentialMessage(m));
      answered := Some(m);
    }

    /**
     * `registerAsRealuser`: the credentials go to the transmission service, which is asked to
     * convert the guest whatever the platform; the guest flag is left as it was.
     */
    method RegisterAsRealuser(platform: Option<Platform>)
      modifies transmission
      ensures transmission.registerName == Some(form.name)
      ensures transmission.registerEmail == Some(form.email)
      ensures transmission.registerPassword == Some(form.password)
      ensures transmission.registerIsGuest == old(transmission.registerIsGuest)
      ensures transmission.transmissions == old(transmission.transmissions) + [ODGuestToRealRegister]
    {
      transmission.registerName := Some(form.name);
      transmission.registerEmail := Some(form.email);
      transmission.registerPassword := Some(form.password);
      transmission.Transmit(ODGuestToRealRegister);
    }

    /** `ngOnInit` clears the component's fields and puts `matchingpassword` in place of `required` on the confirm control. */
    method NgOnInit()
      modifies this`registerName, this`registerEmail, this`registerPassword, this`initialised
      ensures registerName == Some("") && registerEmail == Some("") && registerPassword == Some("")
      ensures initialised
    {
      registerName, registerPassword, registerEmail := Some(""), Some(""), Some("");
      initialised := true;
    }

    function GetPasswordErrorMessage(): (msg: string)
      reads this
      ensures msg == "" <==> SatisfiesPattern(form.password)
      ensures msg == Required <==> form.password == ""
      ensures msg == PatternHint <==> form.password != "" && !SatisfiesPattern(form.password)
    {
      PasswordMessageMeaning(form, initialised);
      PasswordMessage(FieldErrors(form, initialised, Password))
    }

    function GetConfirmPasswordErrorMessage(): (msg: string)
      reads this
      ensures msg == Required <==> !initialised && form.confirm == ""
      ensures msg == NotTheSame <==> initialised || form.confirm != ""
    {
      ConfirmMessageIgnoresMatch(form, initialised);
      ConfirmMessage(FieldErrors(form, initialised, ConfirmPassword))
    }

    function GetRequiredErrorMessage(field: Field): (msg: string)
      reads this
      ensures msg == Required <==> Value(form, field) == "" && !(field == ConfirmPassword && initialised)
      ensures msg != Required ==> msg == ""
    {
      RequiredMessageMeaning(form, initialised, field);
      RequiredMessage(FieldErrors(form, initialised, field))
    }

    /** The credential message stands for the last answer received, and is undefined before any. */
    ghost predicate ShowsLastAnswer()
      reads this
    {
      errorCredentialMessage == if answered.Some? then Some(CredentialMessage(answered.value)) else None
    }

    /**
     * The message names the last answer: none before any answer, and afterwards the message
     * of exactly that answer, which no other answer shares.
     */
    function GetExistsErrorMessage(): (message: Option<string>)
      requires ShowsLastAnswer()
      reads this
      ensures message.None? <==> answered.None?
      ensures answered.Some? ==> message == Some(CredentialMessage(answered.value))
      ensures forall m :: message == Some(CredentialMessage(m)) ==> answered == Some(m)
    {
      if errorCredentialMessage.Some? then
        MessageNamesAnswer(answered.value);
        errorCredentialMessage
      else
        errorCredentialMessage
    }
  }

  /**
   * A guest fills in the form after `ngOnInit` and asks to become a registered user: the
   * conversion is requested on every platform, with the entered credentials, and the confirm
   * message reads "not the same" even when both passwords agree; an "already exists" answer,
   * when one arrives, is shown by its own message, and none is shown without one.
   */
  method GuestToRealScenario(platform: Option<Platform>, name: string, email: string, password: string, confirm: string,
                          answer: Option<ExistingCredentials>)
    returns (sent: seq<Transmission>, passwordMessage: string, confirmMessage: string, existsMessage: Option<string>)
    ensures existsMessage == if answer.Some? then Some(CredentialMessage(answer.value)) else None
    ensures sent == [ODGuestToRealRegister]
    ensures passwordMessage == "" <==> SatisfiesPattern(password)
    ensures confirmMessage == NotTheSame
  {
    var transmission := new TransmissionService();
    var view := new RegisterRealuserComponent(transmission);
    view.NgOnInit();
    view.SetValue(Name, name);
    view.SetValue(Email, email);
    view.SetValue(Password, password);
    view.SetValue(ConfirmPassword, confirm);
    assert view.form.password == password;
    if answer.Some? {
      view.OnExistingCredentials(answer.value);
    }
    view.RegisterAsRealuser(platform);
    sent := transmission.transmissions;
    passwordMessage := view.GetPasswordErrorMessage();
    confirmMessage := view.GetConfirmPasswordErrorMessage();
    existsMessage := view.GetExistsErrorMessage();
  }
}
