/**
 * Account registration: the `POST /api/auth/register` route and the register page
 * that calls it.
 *
 * The route checks the fields, then the password length, then whether the email is
 * taken, and only then stores the user with the hashed password. The database is a
 * map from email to user. The password hash (`bcrypt`) and the id the database
 * assigns are parameters.
 *
 * The page checks that the two passwords match and are long enough before it sends
 * anything. The replies of the request and of the sign-in that follows are
 * parameters.
 */
module Registration {
  import opened Wrappers
  import Text

  // ------------------------------------------------------------ the route

  /** The request body's fields; an absent field is `None`. */
  datatype RegisterRequest = RegisterRequest(name: Option<string>, email: Option<string>, password: Option<string>)

  /** A stored user; `password` holds the hash. */
  datatype User = User(id: nat, name: string, email: string, password: string)

  /** The user as the reply shows it: every field but the password. */
  datatype PublicUser = PublicUser(id: nat, name: string, email: string)

  datatype RegisterReply = RegisterReply(status: int, message: string, user: Option<PublicUser>)

  const MissingMessage := "Missing name, email, or password"
  const ShortMessage := "Password must be at least 8 characters long"
  const TakenMessage := "User with this email already exists"
  const CreatedMessage := "User created successfully"
  const FailedMessage := "Something went wrong"

  /** JavaScript truthiness of an optional string field. */
  predicate Filled(x: Option<string>) {
    x.Some? && x.value != ""
  }

  /**
   * The route's checks that do not need the database: the missing-field check
   * first, then the length check. `None` when the request passes both.
   */
  function Refusal(req: RegisterRequest): (r: Option<RegisterReply>)
    ensures r.None? <==> Filled(req.name) && Filled(req.email) && Filled(req.password) && Text.Utf16Length(req.password.value) >= 8
    ensures !(Filled(req.name) && Filled(req.email) && Filled(req.password)) ==>
      r == Some(RegisterReply(400, MissingMessage, None))
    ensures r.Some? && r.value.message == ShortMessage ==> Filled(req.password) && Text.Utf16Length(req.password.value) < 8
    ensures Filled(req.name) && Filled(req.email) && Filled(req.password) && Text.Utf16Length(req.password.value) < 8 ==>
      r == Some(RegisterReply(400, ShortMessage, None))
    ensures r.Some? ==> r.value.status == 400 && r.value.user.None?
  {
    if !Filled(req.name) || !Filled(req.email) || !Filled(req.password) then
      Some(RegisterReply(400, MissingMessage, None))
    else if Text.Utf16Length(req.password.value) < 8 then
      Some(RegisterReply(400, ShortMessage, None))
    else
      None
  }

  /**
   * The length rule counts UTF-16 code units, not characters: four emoji make a
   * password of length 8, which the route accepts.
   */
  lemma FourEmojiPassword()
    ensures Refusal(RegisterRequest(Some("a"), Some("b"), Some("\U{1F600}\U{1F600}\U{1F600}\U{1F600}"))).None?
  {
    assert Text.Utf16Length("\U{1F600}\U{1F600}\U{1F600}\U{1F600}") == 8;
  }

  /** `const { password: _, ...userWithoutPassword } = user`. */
  function Public(u: User): PublicUser {
    PublicUser(u.id, u.name, u.email)
  }

  /** The user table; a user is found by email. */
  class UserTable {
    var users: map<string, User>

    constructor(initial: map<string, User>)
      ensures users == initial
    {
      users := initial;
    }

    /**
     * POST with the parsed body (`None` when `req.json()` fails). Only a request
     * that passes every check adds a user, under its email and with the hash of
     * its password.
     */
    method Register(body: Option<RegisterRequest>, id: nat, hash: string -> string) returns (reply: RegisterReply)
      modifies this
      ensures body.None? ==> reply == RegisterReply(500, FailedMessage, None) && users == old(users)
      ensures body.Some? && Refusal(body.value).Some? ==> reply == Refusal(body.value).value && users == old(users)
      ensures body.Some? && Refusal(body.value).None? && body.value.email.value in old(users) ==>
        reply == RegisterReply(409, TakenMessage, None) && users == old(users)
      ensures body.Some? && Refusal(body.value).None? && body.value.email.value !in old(users) ==>
        var u := User(id, body.value.name.value, body.value.email.value, hash(body.value.password.value));
        reply == RegisterReply(201, CreatedMessage, Some(Public(u)))
        && users == old(users)[u.email := u]
    {
      if body.None? {
        return RegisterReply(500, FailedMessage, None);
      }
      var req := body.value;
      var refused := Refusal(req);
      if refused.Some? {
        return refused.value;
      }
      var email := req.email.value;
      if email in users {
        return RegisterReply(409, TakenMessage, None);
      }
      var u := User(id, req.name.value, email, hash(req.password.value));
      users := users[email := u];
      reply := RegisterReply(201, CreatedMessage, Some(Public(u)));
    }
  }

  // ------------------------------------------------------------ the page

  /** The form fields, each the value of the input of the same name. */
  datatype FormData = FormData(name: string, email: string, password: string, confirmPassword: string)

  datatype FieldName = NameField | EmailField | PasswordField | ConfirmField

  function FieldOf(form: FormData, f: FieldName): string {
    match f
    case NameField => form.name
    case EmailField => form.email
    case PasswordField => form.password
    case ConfirmField => form.confirmPassword
  }

  /** `{ ...prev, [name]: value }`: the named field takes the value, the others keep theirs. */
  function WithField(form: FormData, f: FieldName, value: string): (r: FormData)
    ensures FieldOf(r, f) == value
    ensures forall g :: g != f ==> FieldOf(r, g) == FieldOf(form, g)
  {
    match f
    case NameField => form.(name := value)
    case EmailField => form.(email := value)
    case PasswordField => form.(password := value)
    case ConfirmField => form.(confirmPassword := value)
  }

  const MismatchMessage := "\U{5BC6}\U{78BC}\U{4E0D}\U{5339}\U{914D}"
  const TooShortMessage := "\U{5BC6}\U{78BC}\U{5FC5}\U{9808}\U{81F3}\U{5C11}\U{70BA} 8 \U{500B}\U{5B57}\U{7B26}"
  const RegisterFailedMessage := "\U{8A3B}\U{518A}\U{5931}\U{6557}"

  /** The page's own checks before sending: the passwords must match, then be long enough. */
  function ClientCheck(form: FormData): (r: Option<string>)
    ensures r.None? <==> form.password == form.confirmPassword && Text.Utf16Length(form.password) >= 8
    ensures form.password != form.confirmPassword ==> r == Some(MismatchMessage)
    ensures form.password == form.confirmPassword && Text.Utf16Length(form.password) < 8 ==> r == Some(TooShortMessage)
  {
    if form.password != form.confirmPassword then Some(MismatchMessage)
    else if Text.Utf16Length(form.password) < 8 then Some(TooShortMessage)
    else None
  }

  /** The body the page sends: name, email and password, never the confirmation. */
  function Sent(form: FormData): RegisterRequest {
    RegisterRequest(Some(form.name), Some(form.email), Some(form.password))
  }

  /**
   * What the page's checks guarantee about the route's: a form the page lets
   * through with a name and an email is never refused with 400, and a password
   * the route calls short never leaves the page.
   */
  lemma ClientCheckAgrees(form: FormData)
    ensures ClientCheck(form).None? && form.name != "" && form.email != "" ==> Refusal(Sent(form)).None?
    ensures Refusal(Sent(form)) == Some(RegisterReply(400, ShortMessage, None)) ==> ClientCheck(form).Some?
  {
  }

  /**
   * How the request ended: the route answered ok and the sign-in that follows
   * reported `signInError`; the route refused with the body's `message`; or the
   * request threw an error with `message`.
   */
  datatype Outcome = Accepted(signInError: Option<string>) | Refused(message: Option<string>) | Threw(reason: string)

  /** The error the page shows after a request that ended with `o`; `""` after a full success. */
  function OutcomeError(o: Outcome): (r: string)
    ensures o.Refused? ==> r != ""
    ensures o.Accepted? ==> (r == "" <==> !Filled(o.signInError))
  {
    match o
    case Accepted(e) => if Filled(e) then e.value else ""
    case Refused(m) => if Filled(m) then m.value else RegisterFailedMessage
    case Threw(m) => m
  }

  class RegisterPage {
    var formData: FormData
    var error: string
    var isLoading: bool

    constructor()
      ensures formData == FormData("", "", "", "") && error == "" && !isLoading
    {
      formData := FormData("", "", "", "");
      error := "";
      isLoading := false;
    }

    method HandleChange(f: FieldName, value: string)
      modifies this
      ensures formData == WithField(old(formData), f, value)
      ensures error == old(error) && isLoading == old(isLoading)
    {
      formData := WithField(formData, f, value);
    }

    /**
     * Submitting the form. A failed page check sets its message and sends nothing;
     * otherwise the form's request is sent, the outcome's error is shown, and
     * loading ends.
     */
    method HandleSubmit(outcome: Outcome) returns (sent: Option<RegisterRequest>)
      modifies this
      ensures formData == old(formData)
      ensures ClientCheck(formData).Some? ==>
        sent.None? && error == ClientCheck(formData).value && isLoading == old(isLoading)
      ensures ClientCheck(formData).None? ==>
        sent == Some(Sent(formData)) && error == OutcomeError(outcome) && !isLoading
    {
      error := "";
      var problem := ClientCheck(formData);
      if problem.Some? {
        error := problem.value;
        return None;
      }
      isLoading := true;
      sent := Some(Sent(formData));
      error := OutcomeError(outcome);
      isLoading := false;
    }
  }
}
