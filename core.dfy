/**
 * `src/core/AuthCore.js`: the configuration an `AuthCore` resolves, its one-time
 * initialisation, the services it sets up, and the three operations it offers besides the
 * router (`createUser`, `authenticateUser`, `verifyEmail`). The database connection is a
 * parameter saying whether `mongoose.connect` succeeds.
 */
module Core {
  import opened Js
  import opened Tokens
  import opened UserModel
  import opened Http
  import opened Webhooks
  import opened Settings
  import opened Effects
  import opened UserStore

  const DefaultBaseUrl := "http://localhost:3000"

  /** A key of the object handed to the constructor: left out, or present with some value (possibly falsy). */
  datatype Slot<+T> = Missing | Given(value: JsVal<T>)

  /** The constructor's `config` argument, for the keys the package reads. */
  datatype ConfigArg = ConfigArg(
    mongoURI: Slot<string>,
    jwtSecret: Slot<string>,
    baseUrl: Slot<string>,
    emailConfig: Slot<EmailConfig>,
    webhookConfig: Slot<WebhookConfig>)

  /** `MONGO_URI`, `JWT_SECRET` and `BASE_URL` in `process.env`; an unset variable is `None`. */
  datatype ProcessEnv = ProcessEnv(mongoUri: Option<string>, jwtSecret: Option<string>, baseUrl: Option<string>)

  function Read<T>(s: Slot<T>): JsVal<T> {
    if s.Given? then s.value else Undefined
  }

  function EnvVar(v: Option<string>): JsVal<string> {
    if v.Some? then Is(v.value) else Undefined
  }

  /** The trailing `...config`: a key present in the argument replaces what the fallbacks chose. */
  function Spread<T>(s: Slot<T>, fallback: JsVal<T>): JsVal<T> {
    if s.Given? then s.value else fallback
  }

  /** `{}` in the fallback position: no `enabled` flag, no list of webhooks. */
  const EmptyEmailConfig := EmailConfig(false)
  const EmptyWebhookConfig := WebhookConfig(false, Undefined)

  /**
   * `this.config` as the constructor builds it. Because the spread comes last, a key the
   * caller passed always wins, even a falsy one; the `||` fallbacks only decide keys that
   * were left out.
   */
  function Resolve(arg: ConfigArg, env: ProcessEnv): (c: Config)
    ensures arg.mongoURI.Given? ==> c.mongoURI == arg.mongoURI.value
    ensures arg.mongoURI.Missing? ==> c.mongoURI == EnvVar(env.mongoUri)
    ensures arg.jwtSecret.Given? ==> c.jwtSecret == arg.jwtSecret.value
    ensures arg.jwtSecret.Missing? ==> c.jwtSecret == EnvVar(env.jwtSecret)
    ensures arg.baseUrl.Given? ==> c.baseUrl == arg.baseUrl.value
    ensures arg.baseUrl.Missing? ==>
              c.baseUrl == if env.baseUrl.Some? && env.baseUrl.value != "" then Is(env.baseUrl.value) else Is(DefaultBaseUrl)
    ensures arg.emailConfig.Given? ==> c.emailConfig == arg.emailConfig.value
    ensures arg.emailConfig.Missing? ==> c.emailConfig == Is(EmptyEmailConfig)
    ensures arg.webhookConfig.Given? ==> c.webhookConfig == arg.webhookConfig.value
    ensures arg.webhookConfig.Missing? ==> c.webhookConfig == Is(EmptyWebhookConfig)
  {
    Config(
      Spread(arg.mongoURI, OrString(Read(arg.mongoURI), EnvVar(env.mongoUri))),
      Spread(arg.jwtSecret, OrString(Read(arg.jwtSecret), EnvVar(env.jwtSecret))),
      Spread(arg.baseUrl, OrString(OrString(Read(arg.baseUrl), EnvVar(env.baseUrl)), Is(DefaultBaseUrl))),
      Spread(arg.emailConfig, OrObject(Read(arg.emailConfig), Is(EmptyEmailConfig))),
      Spread(arg.webhookConfig, OrObject(Read(arg.webhookConfig), Is(EmptyWebhookConfig))))
  }

  /** A base URL left out of the argument is never falsy: the default stands behind the environment. */
  lemma MissingBaseUrlIsTruthy(arg: ConfigArg, env: ProcessEnv)
    requires arg.baseUrl.Missing?
    ensures TruthyString(Resolve(arg, env).baseUrl)
  {
  }

  /** An empty base URL passed explicitly survives: the spread undoes the `||` default. */
  lemma GivenEmptyBaseUrlSurvives(arg: ConfigArg, env: ProcessEnv)
    requires arg.baseUrl == Given(Is(""))
    ensures Resolve(arg, env).baseUrl == Is("")
    ensures !TruthyString(Resolve(arg, env).baseUrl)
  {
  }

  predicate EmailEnabled(c: Config) {
    c.emailConfig.Is? && c.emailConfig.v.enabled
  }

  predicate WebhookEnabled(c: Config) {
    c.webhookConfig.Is? && c.webhookConfig.v.enabled
  }

  /** `setupServices()`: each service is created when its configuration is present and enabled; nothing is removed. */
  function ServicesFor(prev: Services, c: Config): (s: Services)
    ensures EmailEnabled(c) ==> s.email == Some(c.emailConfig.v)
    ensures !EmailEnabled(c) ==> s.email == prev.email
    ensures WebhookEnabled(c) ==> s.webhook == Some(NewService(c.webhookConfig.v))
    ensures !WebhookEnabled(c) ==> s.webhook == prev.webhook
  {
    Services(
      if EmailEnabled(c) then Some(c.emailConfig.v) else prev.email,
      if WebhookEnabled(c) then Some(NewService(c.webhookConfig.v)) else prev.webhook)
  }

  /**
   * Starting from no services, as every `AuthCore` does: a service exists exactly when the
   * caller passed its configuration with `enabled` set, since the fallback `{}` never enables one.
   */
  lemma ServicesFollowArgument(arg: ConfigArg, env: ProcessEnv)
    ensures var s := ServicesFor(NoServices, Resolve(arg, env));
            && (s.email.Some? <==> arg.emailConfig.Given? && arg.emailConfig.value.Is? && arg.emailConfig.value.v.enabled)
            && (s.webhook.Some? <==> arg.webhookConfig.Given? && arg.webhookConfig.value.Is? && arg.webhookConfig.value.v.enabled)
            && (s.webhook.Some? ==> s.webhook.value == NewService(arg.webhookConfig.value.v))
  {
  }

  /**
   * What `sendVerificationEmail(user, this.config.baseUrl)` hands the mail service: the base
   * URL lands in the token position and no base URL follows it.
   */
  function CreationMail(u: User, baseUrl: JsVal<string>): (m: Email)
    ensures m.kind == VerificationMail && m.to == u.email
    ensures forall t :: m.token != TokenArg(t)
    ensures m.baseUrl == Undefined
  {
    Email(VerificationMail, u.email, TextArg(baseUrl), Undefined)
  }

  /**
   * What `createUser` sends once the record `u` is stored, and what it returns: the
   * verification email when there is a mail service, then the event unless the email was
   * rejected. `sent` and `published` are the logs before, `sent'` and `published'` after.
   */
  predicate AfterCreation(svc: Services, baseUrl: JsVal<string>, u: User, now: nat,
                          mailer: Email -> MailOutcome, answers: Request -> bool,
                          sent: seq<Email>, sent': seq<Email>, published: seq<Emitted>, published': seq<Emitted>,
                          r: Result<User, Fault>)
  {
    var mail := CreationMail(u, baseUrl);
    var mailFailed := svc.email.Some? && mailer(mail).Rejected?;
    var event := Announcement(svc.webhook, "user.created", u, now, answers);
    && sent' == sent + (if svc.email.Some? then [mail] else [])
    && (mailFailed ==> r == Err(MailFailed(mailer(mail).reason)) && published' == published)
    && (!mailFailed && event.None? ==> r == Err(NoEventList) && published' == published)
    && (!mailFailed && event.Some? ==> r == Ok(u) && published' == published + event.value)
  }

  /** The steps of `createUser` once the model is set up, against the collection and the outbox. */
  method Create(db: UserTable, out: Outbox, svc: Services, baseUrl: JsVal<string>, data: UserData, now: nat,
                mailer: Email -> MailOutcome, answers: Request -> bool) returns (r: Result<User, Fault>)
    requires db.Valid()
    modifies db, out
    ensures db.Valid() && Grows(old(db.users), db.users)
    ensures !Admissible(NewDoc(data)) ==>
              r == Err(Invalid(Validate(NewDoc(data)))) && unchanged(db) && unchanged(out)
    ensures Admissible(NewDoc(data)) && EmailTaken(old(db.users), NewDoc(data).email, None) ==>
              r == Err(DuplicateKey(NormalizeEmail(data.email))) && unchanged(db) && unchanged(out)
    ensures Admissible(NewDoc(data)) && !EmailTaken(old(db.users), NewDoc(data).email, None) ==>
              var u := Stored(NewDoc(data), old(db.nextId), now);
              && u.id !in old(db.users) && db.users == old(db.users)[u.id := u]
              && u.email == NormalizeEmail(data.email)
              && AfterCreation(svc, baseUrl, u, now, mailer, answers,
                               old(out.emailsSent), out.emailsSent, old(out.published), out.published, r)
  {
    var doc := NewDoc(data);
    assert doc.email == NormalizeEmail(data.email);
    assert Validate(doc) == [] <==> Admissible(doc);
    ghost var before, id := db.users, db.nextId;
    r := db.Insert(doc, now);
    if r.Err? {
      return;
    }
    var u := r.value;
    assert u == Stored(doc, id, now) && db.users == before[id := u];
    GrowsByAdding(before, id, u);
    r := Announce(out, svc, baseUrl, u, now, mailer, answers);
  }

  /** The steps of `createUser` after the save: the verification email, then the event. */
  method Announce(out: Outbox, svc: Services, baseUrl: JsVal<string>, u: User, now: nat,
                  mailer: Email -> MailOutcome, answers: Request -> bool) returns (r: Result<User, Fault>)
    modifies out
    ensures AfterCreation(svc, baseUrl, u, now, mailer, answers,
                          old(out.emailsSent), out.emailsSent, old(out.published), out.published, r)
  {
    var failure := out.Mail(svc.email, CreationMail(u, baseUrl), mailer);
    if failure.Some? {
      return Err(MailFailed(failure.value));
    }
    var ok := out.Announce(svc.webhook, "user.created", u, now, answers);
    if !ok {
      return Err(NoEventList);
    }
    r := Ok(u);
  }

  class AuthCore {
    var config: Config
    /** Whether `this.models.User` is set; before `setupModels` every model access throws. */
    var modelReady: bool
    var services: Services
    var isInitialized: bool
    /** The collection the `User` model writes to, and what the services send. */
    const db: UserTable
    const out: Outbox

    constructor (arg: ConfigArg, env: ProcessEnv, db: UserTable, out: Outbox)
      ensures config == Resolve(arg, env)
      ensures !modelReady && services == NoServices && !isInitialized
      ensures this.db == db && this.out == out
    {
      config := Resolve(arg, env);
      modelReady := false;
      services := NoServices;
      isInitialized := false;
      this.db := db;
      this.out := out;
    }

    /**
     * `initialize()`: a second call does nothing; otherwise the connection is made, then the
     * models and services are set up. A failed connection rethrows and leaves the core as it was.
     */
    method Initialize(connects: bool) returns (r: Result<(), Fault>)
      modifies this`modelReady, this`services, this`isInitialized
      ensures old(isInitialized) ==> r == Ok(()) && unchanged(this)
      ensures !old(isInitialized) && !connects ==> r == Err(ConnectionFailed) && unchanged(this)
      ensures !old(isInitialized) && connects ==>
                && r == Ok(()) && isInitialized && modelReady
                && services == ServicesFor(old(services), config)
    {
      if isInitialized {
        return Ok(());
      }
      if !connects {
        return Err(ConnectionFailed);
      }
      modelReady := true;
      SetupServices();
      isInitialized := true;
      r := Ok(());
    }

    method SetupServices()
      modifies this`services
      ensures services == ServicesFor(old(services), config)
    {
      if config.emailConfig.Is? && config.emailConfig.v.enabled {
        services := services.(email := Some(config.emailConfig.v));
      }
      if config.webhookConfig.Is? && config.webhookConfig.v.enabled {
        services := services.(webhook := Some(NewService(config.webhookConfig.v)));
      }
    }

    /** `getRouter()`: the routes see this core's models, services and configuration. */
    function Router(): RouteEnv
      reads this
    {
      RouteEnv(modelReady, services, config)
    }

    /**
     * `createUser(userData)`. Unlike `/register`, there is no lookup first (a taken email is
     * refused by the unique index) and the caller's `role` and `isVerified` are kept.
     */
    method CreateUser(data: UserData, now: nat, mailer: Email -> MailOutcome, answers: Request -> bool)
      returns (r: Result<User, Fault>)
      requires db.Valid()
      modifies db, out
      ensures db.Valid() && Grows(old(db.users), db.users)
      ensures !modelReady ==> r == Err(ModelNotSetUp) && unchanged(db) && unchanged(out)
      ensures modelReady && !Admissible(NewDoc(data)) ==>
                r == Err(Invalid(Validate(NewDoc(data)))) && unchanged(db) && unchanged(out)
      ensures modelReady && Admissible(NewDoc(data)) && EmailTaken(old(db.users), NewDoc(data).email, None) ==>
                r == Err(DuplicateKey(NormalizeEmail(data.email))) && unchanged(db) && unchanged(out)
      ensures modelReady && Admissible(NewDoc(data)) && !EmailTaken(old(db.users), NewDoc(data).email, None) ==>
                var u := Stored(NewDoc(data), old(db.nextId), now);
                && u.id !in old(db.users) && db.users == old(db.users)[u.id := u]
                && u.email == NormalizeEmail(data.email)
                && AfterCreation(services, config.baseUrl, u, now, mailer, answers,
                                 old(out.emailsSent), out.emailsSent, old(out.published), out.published, r)
    {
      if !modelReady {
        return Err(ModelNotSetUp);
      }
      r := Create(db, out, services, config.baseUrl, data, now, mailer, answers);
    }

    /**
     * `authenticateUser(email, password)`. An unknown email and a wrong password throw the
     * same error; unlike `/login`, nothing is saved, so `lastLogin` keeps its value.
     */
    method AuthenticateUser(email: string, password: string, now: nat, answers: Request -> bool)
      returns (r: Result<(User, Jwt), Fault>)
      requires db.Valid()
      modifies out`published
      ensures !modelReady ==> r == Err(ModelNotSetUp) && unchanged(out)
      ensures modelReady && (db.FindOne(email).None? || !Compare(password, db.FindOne(email).value.password)) ==>
                r == Err(Thrown(InvalidCredentials)) && unchanged(out)
      ensures modelReady && db.FindOne(email).Some? && Compare(password, db.FindOne(email).value.password) ==>
                var u := db.FindOne(email).value;
                var event := Announcement(services.webhook, "user.login", u, now, answers);
                && (event.None? ==> r == Err(NoEventList) && unchanged(out))
                && (event.Some? ==> r == Ok((u, AuthToken(u, now))) && out.published == old(out.published) + event.value)
    {
      if !modelReady {
        return Err(ModelNotSetUp);
      }
      var found := db.FindOne(email);
      if found.None? || !Compare(password, found.value.password) {
        return Err(Thrown(InvalidCredentials));
      }
      var u := found.value;
      var ok := out.Announce(services.webhook, "user.login", u, now, answers);
      if !ok {
        return Err(NoEventList);
      }
      r := Ok((u, AuthToken(u, now)));
    }

    /**
     * `verifyEmail(token)`. The purpose claim is not checked, and a user who is already
     * verified is saved again (a save that changes nothing); every failure inside the `try`,
     * the webhook's included, is replaced by one error.
     */
    method VerifyEmail(token: Jwt, now: nat, answers: Request -> bool) returns (r: Result<User, Fault>)
      requires db.Valid()
      modifies db, out`published
      ensures db.Valid() && Grows(old(db.users), db.users)
      ensures r.Err? ==> r.error == Thrown(BadVerification)
      ensures Verify(token, now).Err? || !modelReady || token.claims.id !in old(db.users) ==>
                r.Err? && unchanged(db) && unchanged(out)
      ensures Verify(token, now).Ok? && modelReady && token.claims.id in old(db.users) ==>
                var u := old(db.users)[token.claims.id];
                var saved := if u.isVerified then u else u.(isVerified := true, updatedAt := now);
                var event := Announcement(services.webhook, "user.verified", saved, now, answers);
                && db.users == old(db.users)[token.claims.id := saved]
                && (event.None? ==> r.Err? && unchanged(out))
                && (event.Some? ==> r == Ok(saved) && out.published == old(out.published) + event.value)
    {
      var claims := Verify(token, now);
      if claims.Err? || !modelReady || claims.value.id !in db.users {
        return Err(Thrown(BadVerification));
      }
      var u := db.users[claims.value.id];
      var saved := Confirm(u, now);
      var ok := out.Announce(services.webhook, "user.verified", saved, now, answers);
      if !ok {
        return Err(Thrown(BadVerification));
      }
      r := Ok(saved);
    }

    /** `user.isVerified = true; await user.save()` on a loaded record. */
    method Confirm(u: User, now: nat) returns (saved: User)
      requires db.Valid() && u.id in db.users && db.users[u.id] == u
      modifies db
      ensures db.Valid() && Grows(old(db.users), db.users)
      ensures saved == if u.isVerified then u else u.(isVerified := true, updatedAt := now)
      ensures db.users == old(db.users)[u.id := saved]
    {
      ghost var before := db.users;
      var doc := u.(isVerified := true);
      if u.isVerified {
        assert doc == u;
      } else {
        assert doc != u by { assert doc.isVerified != u.isVerified; }
      }
      saved := db.Edit(doc, now);
      GrowsByEdit(before, u.id, saved);
    }
  }
}
