/** The account router: login, registration with its bootstrap gate, the
    current-account view, the three credential updates with their demo-mode
    lock, and secret issuance. Each route is a decision over the deployment
    flags, the request fields and what the account store answers; it yields
    the store calls it makes and the response it writes. */
module Auth {
  import opened Common

  /** The two deployment flags. Each is set exactly when its environment
      variable holds the string "true". */
  datatype Config = Config(enableRegistration: bool, demo: bool)

  /** The account store calls these routes make. */
  datatype AccountCall =
    | CountCall
    | LoginCall(username: string, password: string)
    | RegisterCall(email: string, username: string, password: string, role: Role)
    | EmailUpdateCall(account: Account, newEmail: string, password: string)
    | PasswordUpdateCall(account: Account, password: string, newPassword: string)
    | UsernameUpdateCall(account: Account, newUsername: string, password: string)
    | CreateSecretCall(account: Account)

  const RegistrationDisabled := "Registration is not enabled"
  const DemoLocked := "Updating of credentials is not enabled in demo mode."
  const LoginInternal := "Internal Server Error when logging in"
  const RegisterInternal := "Internal Server Error when registering"
  const EmailInternal := "Internal Server Error when updating email"
  const PasswordInternal := "Internal Server Error when updating password"
  const UsernameInternal := "Internal Server Error when updating username"

  /** Reads the flags from `ENABLE_REGISTRATION` and `DEMO` (None when unset). */
  function ConfigFromEnv(enableRegistration: Option<string>, demo: Option<string>): (c: Config)
    ensures c.enableRegistration <==> enableRegistration == Some("true")
    ensures c.demo <==> demo == Some("true")
    ensures enableRegistration.None? ==> !c.enableRegistration
    ensures demo.None? ==> !c.demo
  {
    Config(enableRegistration == Some("true"), demo == Some("true"))
  }

  /** The registration policy in its own words: never in demo mode;
      otherwise the very first account may always register (bootstrap),
      later ones only when open registration is enabled. */
  predicate MayRegister(cfg: Config, count: nat) {
    !cfg.demo && (count == 0 || cfg.enableRegistration)
  }

  /** POST /login: the credentials go to the store unchanged; its error is
      reported by code and message only. */
  function Login(username: string, password: string, outcome: Outcome<Json>): (h: Handled<AccountCall>)
    ensures h.calls == [LoginCall(username, password)]
    ensures outcome.Ok? ==> Delivers(h.response, Some(outcome.data))
    ensures outcome.Err? ==> Reports(h.response, outcome.error, LoginInternal)
    ensures outcome.Throws? ==> Refuses(h.response, 500, LoginInternal)
  {
    var response :=
      match outcome
      case Err(e) => ErrorEnvelope(e, false, LoginInternal)
      case Ok(data) => Succeeded(Some(data))
      case Throws => Failed(500, LoginInternal);
    Handled([LoginCall(username, password)], response)
  }

  /** POST /register: `count` is what counting the accounts answered. */
  function Register(cfg: Config, email: string, username: string, password: string,
                    count: nat, outcome: Outcome<Json>): (h: Handled<AccountCall>)
    ensures 1 <= |h.calls| <= 2 && h.calls[0] == CountCall
    // the gate: the store's register is reached exactly when the policy allows it
    ensures |h.calls| == 2 <==> MayRegister(cfg, count)
    ensures !MayRegister(cfg, count) ==> Refuses(h.response, 412, RegistrationDisabled)
    // the request's fields are passed on, and the first account becomes admin
    ensures |h.calls| == 2 ==>
      && h.calls[1].RegisterCall?
      && h.calls[1].email == email && h.calls[1].username == username && h.calls[1].password == password
      && (h.calls[1].role == Admin <==> count == 0)
    ensures MayRegister(cfg, count) && outcome.Ok? ==> Delivers(h.response, Some(outcome.data))
    ensures MayRegister(cfg, count) && outcome.Err? ==> ReportsWithDetails(h.response, outcome.error, RegisterInternal)
    ensures MayRegister(cfg, count) && outcome.Throws? ==> Refuses(h.response, 500, RegisterInternal)
  {
    if (count != 0 && !cfg.enableRegistration) || cfg.demo then
      Handled([CountCall], Failed(412, RegistrationDisabled))
    else
      var call := RegisterCall(email, username, password, if count == 0 then Admin else Standard);
      var response :=
        match outcome
        case Err(e) => ErrorEnvelope(e, true, RegisterInternal)
        case Ok(data) => Succeeded(Some(data))
        case Throws => Failed(500, RegisterInternal);
      Handled([CountCall, call], response)
  }

  /** The public view of an account: its email, id, username, role and secret. */
  function AccountView(account: Account): Json {
    JObj(map[
      "email" := JStr(account.email),
      "id" := JStr(account.id),
      "username" := JStr(account.username),
      "role" := JStr(RoleName(account.role)),
      "secret" := JStr(account.secret)])
  }

  /** GET /me: answers from the session's account without asking the store. */
  function Me(account: Account): (h: Handled<AccountCall>)
    ensures h.calls == []
    ensures h.response.Envelope? && h.response.status == 200 && h.response.success
    ensures h.response.message.None? && h.response.details.None?
    ensures h.response.result.Some? && h.response.result.value.JObj?
    ensures h.response.result.value.fields.Keys == {"email", "id", "username", "role", "secret"}
    ensures h.response.result.value.fields["email"] == JStr(account.email)
    ensures h.response.result.value.fields["id"] == JStr(account.id)
    ensures h.response.result.value.fields["username"] == JStr(account.username)
    ensures h.response.result.value.fields["role"] == JStr(RoleName(account.role))
    ensures h.response.result.value.fields["secret"] == JStr(account.secret)
  {
    Handled([], Succeeded(Some(AccountView(account))))
  }

  /** The part the three credential updates share: the demo lock comes
      before the store, then the store's answer is reported. */
  function CredentialUpdate(cfg: Config, call: AccountCall, outcome: Outcome<Json>, internal: string): (h: Handled<AccountCall>)
    ensures cfg.demo ==> h.calls == [] && Refuses(h.response, 406, DemoLocked)
    ensures !cfg.demo ==> h.calls == [call]
    ensures !cfg.demo && outcome.Ok? ==> Delivers(h.response, Some(outcome.data))
    ensures !cfg.demo && outcome.Err? ==> Reports(h.response, outcome.error, internal)
    ensures !cfg.demo && outcome.Throws? ==> Refuses(h.response, 500, internal)
  {
    if cfg.demo then
      Handled([], Failed(406, DemoLocked))
    else
      var response :=
        match outcome
        case Err(e) => ErrorEnvelope(e, false, internal)
        case Ok(data) => Succeeded(Some(data))
        case Throws => Failed(500, internal);
      Handled([call], response)
  }

  /** PATCH /email. */
  function UpdateEmail(cfg: Config, account: Account, newEmail: string, password: string,
                       outcome: Outcome<Json>): (h: Handled<AccountCall>)
    ensures cfg.demo ==> h.calls == [] && Refuses(h.response, 406, DemoLocked)
    ensures !cfg.demo ==> h.calls == [EmailUpdateCall(account, newEmail, password)]
    ensures !cfg.demo && outcome.Ok? ==> Delivers(h.response, Some(outcome.data))
    ensures !cfg.demo && outcome.Err? ==> Reports(h.response, outcome.error, EmailInternal)
    ensures !cfg.demo && outcome.Throws? ==> Refuses(h.response, 500, EmailInternal)
  {
    CredentialUpdate(cfg, EmailUpdateCall(account, newEmail, password), outcome, EmailInternal)
  }

  /** PATCH /password. */
  function UpdatePassword(cfg: Config, account: Account, password: string, newPassword: string,
                          outcome: Outcome<Json>): (h: Handled<AccountCall>)
    ensures cfg.demo ==> h.calls == [] && Refuses(h.response, 406, DemoLocked)
    ensures !cfg.demo ==> h.calls == [PasswordUpdateCall(account, password, newPassword)]
    ensures !cfg.demo && outcome.Ok? ==> Delivers(h.response, Some(outcome.data))
    ensures !cfg.demo && outcome.Err? ==> Reports(h.response, outcome.error, PasswordInternal)
    ensures !cfg.demo && outcome.Throws? ==> Refuses(h.response, 500, PasswordInternal)
  {
    CredentialUpdate(cfg, PasswordUpdateCall(account, password, newPassword), outcome, PasswordInternal)
  }

  /** PATCH /username. */
  function UpdateUsername(cfg: Config, account: Account, newUsername: string, password: string,
                          outcome: Outcome<Json>): (h: Handled<AccountCall>)
    ensures cfg.demo ==> h.calls == [] && Refuses(h.response, 406, DemoLocked)
    ensures !cfg.demo ==> h.calls == [UsernameUpdateCall(account, newUsername, password)]
    ensures !cfg.demo && outcome.Ok? ==> Delivers(h.response, Some(outcome.data))
    ensures !cfg.demo && outcome.Err? ==> Reports(h.response, outcome.error, UsernameInternal)
    ensures !cfg.demo && outcome.Throws? ==> Refuses(h.response, 500, UsernameInternal)
  {
    CredentialUpdate(cfg, UsernameUpdateCall(account, newUsername, password), outcome, UsernameInternal)
  }

  /** POST /newSecret: `secret` is what creating the secret resolved to. */
  function NewSecret(account: Account, secret: Json): (h: Handled<AccountCall>)
    ensures h.calls == [CreateSecretCall(account)]
    ensures Delivers(h.response, Some(JObj(map["secret" := secret])))
  {
    Handled([CreateSecretCall(account)], Succeeded(Some(JObj(map["secret" := secret]))))
  }

  // Properties relating several requests.

  /** With no account yet and outside demo mode, registration goes through
      as admin even with open registration disabled; demo mode blocks even
      the first account. */
  lemma BootstrapException(cfg: Config, email: string, username: string, password: string, outcome: Outcome<Json>)
    ensures !cfg.demo ==>
      Register(cfg, email, username, password, 0, outcome).calls
        == [CountCall, RegisterCall(email, username, password, Admin)]
    ensures cfg.demo ==>
      Register(cfg, email, username, password, 0, outcome).calls == [CountCall]
  {
  }

  /** Once an account exists, registrations that go through are standard. */
  lemma LaterAccountsAreStandard(cfg: Config, email: string, username: string, password: string,
                                 count: nat, outcome: Outcome<Json>)
    requires count > 0 && cfg.enableRegistration && !cfg.demo
    ensures Register(cfg, email, username, password, count, outcome).calls
      == [CountCall, RegisterCall(email, username, password, Standard)]
  {
  }

  /** A closed registration answers the same whatever the request's fields
      and whatever the store would have said. */
  lemma ClosedRegistrationIgnoresRequest(cfg: Config, count: nat,
                                         email1: string, username1: string, password1: string, outcome1: Outcome<Json>,
                                         email2: string, username2: string, password2: string, outcome2: Outcome<Json>)
    requires !MayRegister(cfg, count)
    ensures Register(cfg, email1, username1, password1, count, outcome1)
      == Register(cfg, email2, username2, password2, count, outcome2)
  {
  }

  /** Login failures with the same code and message look the same to the
      client, whatever the credentials and whatever details the store
      attached: an unknown user and a wrong password cannot be told apart
      by the handler. */
  lemma LoginFailuresIndistinguishable(username1: string, password1: string, e1: StoreError,
                                       username2: string, password2: string, e2: StoreError)
    requires e1.code == e2.code && e1.message == e2.message
    ensures Login(username1, password1, Err(e1)).response == Login(username2, password2, Err(e2)).response
  {
  }

  /** In demo mode all three credential updates answer 406 without calling
      the store, whatever passwords are supplied. */
  lemma DemoLocksCredentials(cfg: Config, account: Account, value: string, password: string, outcome: Outcome<Json>)
    requires cfg.demo
    ensures UpdateEmail(cfg, account, value, password, outcome) == Handled([], Failed(406, DemoLocked))
    ensures UpdatePassword(cfg, account, password, value, outcome) == Handled([], Failed(406, DemoLocked))
    ensures UpdateUsername(cfg, account, value, password, outcome) == Handled([], Failed(406, DemoLocked))
  {
  }

  /** The current-account view does not depend on the stored password hash. */
  lemma MeHidesPasswordHash(account: Account, otherHash: string)
    ensures Me(account) == Me(account.(passwordHash := otherHash))
  {
  }

  /** Every account route writes a well-formed envelope, whatever the
      flags, the request and the store's answers. */
  lemma AccountResponsesWellFormed(cfg: Config, account: Account, a: string, b: string, c: string,
                                   count: nat, outcome: Outcome<Json>, secret: Json)
    ensures WellFormed(Login(a, b, outcome).response)
    ensures WellFormed(Register(cfg, a, b, c, count, outcome).response)
    ensures WellFormed(Me(account).response)
    ensures WellFormed(UpdateEmail(cfg, account, a, b, outcome).response)
    ensures WellFormed(UpdatePassword(cfg, account, a, b, outcome).response)
    ensures WellFormed(UpdateUsername(cfg, account, a, b, outcome).response)
    ensures WellFormed(NewSecret(account, secret).response)
  {
  }

  /** Only the exact string "true" opens registration: once an account
      exists, any other value of `ENABLE_REGISTRATION`, or none, closes it
      before the store is asked. */
  lemma RegistrationFlagNeedsExactTrue(registrationVar: Option<string>, demoVar: Option<string>,
                                       email: string, username: string, password: string,
                                       count: nat, outcome: Outcome<Json>)
    requires count > 0 && registrationVar != Some("true")
    ensures Register(ConfigFromEnv(registrationVar, demoVar), email, username, password, count, outcome)
      == Handled([CountCall], Failed(412, RegistrationDisabled))
  {
  }

  /** Only the exact string "true" turns demo mode on: for any other value
      of `DEMO`, or none, the credential updates reach the store and the
      first account can register as admin. */
  lemma DemoFlagNeedsExactTrue(registrationVar: Option<string>, demoVar: Option<string>,
                               account: Account, value: string, password: string, outcome: Outcome<Json>)
    requires demoVar != Some("true")
    ensures UpdateEmail(ConfigFromEnv(registrationVar, demoVar), account, value, password, outcome).calls
      == [EmailUpdateCall(account, value, password)]
    ensures UpdatePassword(ConfigFromEnv(registrationVar, demoVar), account, password, value, outcome).calls
      == [PasswordUpdateCall(account, password, value)]
    ensures UpdateUsername(ConfigFromEnv(registrationVar, demoVar), account, value, password, outcome).calls
      == [UsernameUpdateCall(account, value, password)]
    ensures Register(ConfigFromEnv(registrationVar, demoVar), account.email, value, password, 0, outcome).calls
      == [CountCall, RegisterCall(account.email, value, password, Admin)]
  {
  }
}
