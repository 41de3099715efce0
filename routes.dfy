/**
 * `src/routes/auth.js`: the register, login, verify-email, forgot-password, reset-password and
 * me handlers, each run against the user table and the outbox. Each handler's contract gives
 * the reply of every branch and the exact new state of the table and the logs.
 */
module Routes {
  import opened Js
  import opened Tokens
  import opened UserModel
  import opened Http
  import opened Webhooks
  import opened Settings
  import opened Effects
  import opened UserStore
  import Middleware

  const UserExists := "User already exists with this email"
  const Registered := "User registered successfully"
  const LoggedIn := "Login successful"
  const WrongVerificationPurpose := "Invalid verification token"
  const UserNotFound := "User not found"
  const AlreadyVerified := "Email already verified"
  const Verified := "Email verified successfully"
  const ResetSent := "Password reset email sent"
  const BadReset := "Invalid or expired reset token"
  const WrongResetPurpose := "Invalid reset token"
  const PasswordWasReset := "Password reset successfully"

  /** `req.body` of `/register`. */
  datatype RegisterBody = RegisterBody(email: string, password: string, firstName: Option<string>, lastName: Option<string>)

  /** `new User({ email, password, firstName, lastName })`: neither `isVerified` nor `role` is passed. */
  function Applicant(b: RegisterBody): UserData {
    UserData(b.email, b.password, b.firstName, b.lastName, None, None)
  }

  /** `res.status(400).json({ error: error.message })`. */
  function Fail(f: Fault): Reply {
    Reply(400, Failed(Rethrown(f)))
  }

  function VerificationMailFor(u: User, now: nat, baseUrl: JsVal<string>): Email {
    Email(VerificationMail, u.email, TokenArg(VerificationToken(u, now)), baseUrl)
  }

  function ResetMailFor(u: User, now: nat, baseUrl: JsVal<string>): Email {
    Email(ResetMail, u.email, TokenArg(ResetToken(u, now)), baseUrl)
  }

  /**
   * What `/register` sends once the record `u` is saved, and what it replies: the verification
   * email when there is a mail service, then the event unless the email was rejected, then the
   * 201 reply with a session token. `sent` and `published` are the logs before, `sent'` and
   * `published'` after.
   */
  predicate Welcomed(env: RouteEnv, u: User, now: nat, mailer: Email -> MailOutcome, answers: Request -> bool,
                     sent: seq<Email>, sent': seq<Email>, published: seq<Emitted>, published': seq<Emitted>, reply: Reply)
  {
    var mail := VerificationMailFor(u, now, env.config.baseUrl);
    var mailFailed := env.services.email.Some? && mailer(mail).Rejected?;
    var event := Announcement(env.services.webhook, "user.registered", u, now, answers);
    && sent' == sent + (if env.services.email.Some? then [mail] else [])
    && (mailFailed ==> reply == Fail(MailFailed(mailer(mail).reason)) && published' == published)
    && (!mailFailed && event.None? ==> reply == Fail(NoEventList) && published' == published)
    && (!mailFailed && event.Some? ==>
          && published' == published + event.value
          && reply == Reply(201, Succeeded(Some(Registered), Some(ToObject(u)), Some(AuthToken(u, now)))))
  }

  /**
   * What `/register` leaves once the lookup found nobody. A document the validators refuse gives
   * a 400 with the validation errors and changes nothing. An admissible one is saved as one new
   * record `u` in stored form, unverified and with the default role, and then what Welcomed
   * describes happens. `users` and `nextId` are the collection before the save, `users'` after it.
   */
  predicate Enrolled(env: RouteEnv, body: RegisterBody, now: nat, mailer: Email -> MailOutcome, answers: Request -> bool,
                     users: map<UserId, User>, users': map<UserId, User>, nextId: UserId,
                     sent: seq<Email>, sent': seq<Email>, published: seq<Emitted>, published': seq<Emitted>, reply: Reply)
  {
    var doc := NewDoc(Applicant(body));
    if !Admissible(doc) then
      reply == Fail(Invalid(Validate(doc))) && users' == users && sent' == sent && published' == published
    else
      var u := Stored(doc, nextId, now);
      && u.id !in users && users' == users[u.id := u]
      && u.email == NormalizeEmail(body.email) && !u.isVerified && u.role == DefaultRole
      && Welcomed(env, u, now, mailer, answers, sent, sent', published, published', reply)
  }

  /** `POST /register`. A rejected verification email fails the request after the user was saved. */
  method Register(db: UserTable, out: Outbox, env: RouteEnv, body: RegisterBody, now: nat,
                  mailer: Email -> MailOutcome, answers: Request -> bool) returns (reply: Reply)
    requires db.Valid()
    modifies db, out
    ensures db.Valid() && Grows(old(db.users), db.users)
    ensures !env.modelReady ==> reply == Fail(ModelNotSetUp) && unchanged(db) && unchanged(out)
    ensures env.modelReady && old(db.FindOne(body.email)).Some? ==>
              reply == Error(400, UserExists) && unchanged(db) && unchanged(out)
    ensures env.modelReady && old(db.FindOne(body.email)).None? && !Admissible(NewDoc(Applicant(body))) ==>
              unchanged(db) && unchanged(out)
    ensures env.modelReady && old(db.FindOne(body.email)).None? ==>
              Enrolled(env, body, now, mailer, answers, old(db.users), db.users, old(db.nextId),
                       old(out.emailsSent), out.emailsSent, old(out.published), out.published, reply)
  {
    if !env.modelReady {
      return Fail(ModelNotSetUp);
    }
    var existing := db.FindOne(body.email);
    if existing.Some? {
      return Error(400, UserExists);
    }
    ghost var users, nextId, sent, published := db.users, db.nextId, out.emailsSent, out.published;
    reply := Enrol(db, out, env, body, now, mailer, answers);
    assert Enrolled(env, body, now, mailer, answers, users, db.users, nextId, sent, out.emailsSent, published, out.published, reply);
  }

  /** The steps of `/register` for an email nobody holds: the save, then the steps after it. */
  method Enrol(db: UserTable, out: Outbox, env: RouteEnv, body: RegisterBody, now: nat,
               mailer: Email -> MailOutcome, answers: Request -> bool) returns (reply: Reply)
    requires db.Valid() && db.FindOne(body.email).None?
    modifies db, out
    ensures db.Valid() && Grows(old(db.users), db.users)
    ensures !Admissible(NewDoc(Applicant(body))) ==> unchanged(db) && unchanged(out)
    ensures Enrolled(env, body, now, mailer, answers, old(db.users), db.users, old(db.nextId),
                       old(out.emailsSent), out.emailsSent, old(out.published), out.published, reply)
  {
    var doc := NewDoc(Applicant(body));
    assert doc.email == NormalizeEmail(body.email);
    assert !EmailTaken(db.users, doc.email, None);
    assert Validate(doc) == [] <==> Admissible(doc);
    ghost var before, id := db.users, db.nextId;
    var r := db.Insert(doc, now);
    if r.Err? {
      assert r == Err(Invalid(Validate(doc)));
      return Fail(r.error);
    }
    var u := r.value;
    assert u == Stored(doc, id, now) && db.users == before[id := u];
    GrowsByAdding(before, id, u);
    reply := Welcome(out, env, u, now, mailer, answers);
  }

  /** The steps of `/register` after the save: the verification email, the event, the 201 reply. */
  method Welcome(out: Outbox, env: RouteEnv, u: User, now: nat,
                 mailer: Email -> MailOutcome, answers: Request -> bool) returns (reply: Reply)
    modifies out
    ensures Welcomed(env, u, now, mailer, answers, old(out.emailsSent), out.emailsSent, old(out.published), out.published, reply)
  {
    var failure := out.Mail(env.services.email, VerificationMailFor(u, now, env.config.baseUrl), mailer);
    if failure.Some? {
      return Fail(MailFailed(failure.value));
    }
    var ok := out.Announce(env.services.webhook, "user.registered", u, now, answers);
    if !ok {
      return Fail(NoEventList);
    }
    reply := Reply(201, Succeeded(Some(Registered), Some(ToObject(u)), Some(AuthToken(u, now))));
  }

  /**
   * A user `/register` stored is found by `/login` under the email they registered with, and
   * the password they chose matches: the login that follows a registration succeeds, and its
   * session token verifies while it lasts.
   */
  lemma RegisteredUserLogsIn(users: map<UserId, User>, byEmail: map<string, UserId>, nextId: UserId,
                             body: RegisterBody, id: UserId, now: nat, later: nat)
    requires Indexed(users, byEmail, nextId)
    requires id in users && users[id] == Stored(NewDoc(Applicant(body)), id, now)
    ensures Lookup(users, byEmail, body.email) == Some(id)
    ensures Compare(body.password, users[id].password)
    ensures Verify(AuthToken(users[id], later), later + SessionTtl - 1).Ok?
  {
    var k := Lookup(users, byEmail, body.email);
    assert users[id].email == NormalizeEmail(body.email);
    assert EmailTaken(users, NormalizeEmail(body.email), None);
    EmailsUnique(users, byEmail, k.value, id);
  }

  /**
   * `POST /login`. An unknown email and a wrong password give the same reply and change
   * nothing; a match sets `lastLogin` and nothing else (the save moves `updatedAt`).
   */
  method Login(db: UserTable, out: Outbox, env: RouteEnv, email: string, password: string, now: nat,
               answers: Request -> bool) returns (reply: Reply)
    requires db.Valid()
    modifies db, out
    ensures db.Valid() && Grows(old(db.users), db.users) && unchanged(out`emailsSent)
    ensures !env.modelReady ==> reply == Fail(ModelNotSetUp) && unchanged(db) && unchanged(out)
    ensures env.modelReady && (old(db.FindOne(email)).None? || !Compare(password, old(db.FindOne(email)).value.password)) ==>
              reply == Error(401, InvalidCredentials) && unchanged(db) && unchanged(out)
    ensures env.modelReady && old(db.FindOne(email)).Some? && Compare(password, old(db.FindOne(email)).value.password) ==>
              var u := old(db.FindOne(email)).value;
              var saved := u.(lastLogin := Some(now), updatedAt := if u.lastLogin == Some(now) then u.updatedAt else now);
              var event := Announcement(env.services.webhook, "user.login", saved, now, answers);
              && db.users == old(db.users)[u.id := saved]
              && (event.None? ==> reply == Fail(NoEventList) && unchanged(out`published))
              && (event.Some? ==>
                    && out.published == old(out.published) + event.value
                    && reply == Reply(200, Succeeded(Some(LoggedIn), Some(ToObject(saved)), Some(AuthToken(saved, now)))))
  {
    if !env.modelReady {
      return Fail(ModelNotSetUp);
    }
    var found := db.FindOne(email);
    if found.None? {
      return Error(401, InvalidCredentials);
    }
    var u := found.value;
    if !Compare(password, u.password) {
      return Error(401, InvalidCredentials);
    }
    reply := RecordLogin(db, out, env, u, now, answers);
  }

  /** The steps of `/login` once the password matched: the `lastLogin` save, the event, the 200 reply. */
  method RecordLogin(db: UserTable, out: Outbox, env: RouteEnv, u: User, now: nat, answers: Request -> bool) returns (reply: Reply)
    requires db.Valid() && u.id in db.users && db.users[u.id] == u
    modifies db, out
    ensures db.Valid() && Grows(old(db.users), db.users) && unchanged(out`emailsSent)
    ensures var saved := u.(lastLogin := Some(now), updatedAt := if u.lastLogin == Some(now) then u.updatedAt else now);
            var event := Announcement(env.services.webhook, "user.login", saved, now, answers);
            && db.users == old(db.users)[u.id := saved]
            && (event.None? ==> reply == Fail(NoEventList) && unchanged(out`published))
            && (event.Some? ==>
                  && out.published == old(out.published) + event.value
                  && reply == Reply(200, Succeeded(Some(LoggedIn), Some(ToObject(saved)), Some(AuthToken(saved, now)))))
  {
    ghost var before := db.users;
    var doc := u.(lastLogin := Some(now));
    if u.lastLogin == Some(now) {
      assert doc == u;
    } else {
      assert doc != u by { assert doc.lastLogin != u.lastLogin; }
    }
    var saved := db.Edit(doc, now);
    assert saved == u.(lastLogin := Some(now), updatedAt := if u.lastLogin == Some(now) then u.updatedAt else now);
    GrowsByEdit(before, u.id, saved);
    var ok := out.Announce(env.services.webhook, "user.login", saved, now, answers);
    if !ok {
      return Fail(NoEventList);
    }
    reply := Reply(200, Succeeded(Some(LoggedIn), Some(ToObject(saved)), Some(AuthToken(saved, now))));
  }

  /**
   * `GET /me` behind the middleware: the profile of the user the token names, whatever kind of
   * token it is.
   */
  method Me(db: UserTable, authorization: Option<string>, decode: string -> Jwt, now: nat) returns (reply: Reply)
    ensures Middleware.Decide(authorization, decode, db.users, now).Deny? ==>
              reply == Middleware.Decide(authorization, decode, db.users, now).reply && reply.status == 401
    ensures Middleware.Decide(authorization, decode, db.users, now).Pass? ==>
              reply == Reply(200, Succeeded(None, Some(ToObject(Middleware.Decide(authorization, decode, db.users, now).user)), None))
  {
    var req := new Middleware.Req(authorization);
    req.Authenticate(decode, db.users, now);
    if req.nextCalled {
      reply := Reply(200, Succeeded(None, Some(ToObject(req.user.value)), None));
    } else {
      reply := req.response.value;
    }
  }

  /**
   * `POST /verify-email`. The purpose is checked, then the user, then whether it is already
   * verified; every thrown error, including one from the webhook after the save, becomes the
   * same opaque reply.
   */
  method VerifyEmail(db: UserTable, out: Outbox, env: RouteEnv, token: Jwt, now: nat,
                     answers: Request -> bool) returns (reply: Reply)
    requires db.Valid()
    modifies db, out
    ensures db.Valid() && Grows(old(db.users), db.users) && unchanged(out`emailsSent)
    ensures reply.status == 200 || reply.status == 400
    ensures Verify(token, now).Err? ==> reply == Error(400, BadVerification) && unchanged(db) && unchanged(out)
    ensures Verify(token, now).Ok? && token.claims.purpose != Some(EmailVerificationPurpose) ==>
              reply == Error(400, WrongVerificationPurpose) && unchanged(db) && unchanged(out)
    ensures Verify(token, now).Ok? && token.claims.purpose == Some(EmailVerificationPurpose) ==>
              var id := token.claims.id;
              && (!env.modelReady ==> reply == Error(400, BadVerification) && unchanged(db) && unchanged(out))
              && (env.modelReady && id !in old(db.users) ==>
                    reply == Error(400, UserNotFound) && unchanged(db) && unchanged(out))
              && (env.modelReady && id in old(db.users) && old(db.users)[id].isVerified ==>
                    reply == Error(400, AlreadyVerified) && unchanged(db) && unchanged(out))
              && (env.modelReady && id in old(db.users) && !old(db.users)[id].isVerified ==>
                    var saved := old(db.users)[id].(isVerified := true, updatedAt := now);
                    var event := Announcement(env.services.webhook, "user.verified", saved, now, answers);
                    && db.users == old(db.users)[id := saved]
                    && (event.None? ==> reply == Error(400, BadVerification) && unchanged(out`published))
                    && (event.Some? ==>
                          && out.published == old(out.published) + event.value
                          && reply == Reply(200, Succeeded(Some(Verified), None, None))))
  {
    var claims := Verify(token, now);
    if claims.Err? {
      return Error(400, BadVerification);
    }
    if claims.value.purpose != Some(EmailVerificationPurpose) {
      return Error(400, WrongVerificationPurpose);
    }
    if !env.modelReady {
      return Error(400, BadVerification);
    }
    var id := claims.value.id;
    if id !in db.users {
      return Error(400, UserNotFound);
    }
    var u := db.users[id];
    if u.isVerified {
      return Error(400, AlreadyVerified);
    }
    reply := MarkVerified(db, out, env, u, now, answers);
  }

  /** The steps of `/verify-email` for an unverified user: the save, the event, the reply. */
  method MarkVerified(db: UserTable, out: Outbox, env: RouteEnv, u: User, now: nat, answers: Request -> bool) returns (reply: Reply)
    requires db.Valid() && u.id in db.users && db.users[u.id] == u && !u.isVerified
    modifies db, out
    ensures db.Valid() && Grows(old(db.users), db.users) && unchanged(out`emailsSent)
    ensures var saved := u.(isVerified := true, updatedAt := now);
            var event := Announcement(env.services.webhook, "user.verified", saved, now, answers);
            && db.users == old(db.users)[u.id := saved]
            && (event.None? ==> reply == Error(400, BadVerification) && unchanged(out`published))
            && (event.Some? ==>
                  && out.published == old(out.published) + event.value
                  && reply == Reply(200, Succeeded(Some(Verified), None, None)))
  {
    ghost var before := db.users;
    var doc := u.(isVerified := true);
    assert doc != u by { assert doc.isVerified != u.isVerified; }
    var saved := db.Edit(doc, now);
    assert saved == u.(isVerified := true, updatedAt := now);
    GrowsByEdit(before, u.id, saved);
    var ok := out.Announce(env.services.webhook, "user.verified", saved, now, answers);
    if !ok {
      return Error(400, BadVerification);
    }
    reply := Reply(200, Succeeded(Some(Verified), None, None));
  }

  /** `POST /forgot-password`: mails a reset token to a known user; the table is not touched. */
  method ForgotPassword(db: UserTable, out: Outbox, env: RouteEnv, email: string, now: nat,
                        mailer: Email -> MailOutcome) returns (reply: Reply)
    requires db.Valid()
    modifies out
    ensures unchanged(out`published)
    ensures !env.modelReady ==> reply == Fail(ModelNotSetUp) && unchanged(out)
    ensures env.modelReady && db.FindOne(email).None? ==> reply == Error(404, UserNotFound) && unchanged(out)
    ensures env.modelReady && db.FindOne(email).Some? ==>
              var mail := ResetMailFor(db.FindOne(email).value, now, env.config.baseUrl);
              var mailFailed := env.services.email.Some? && mailer(mail).Rejected?;
              && out.emailsSent == old(out.emailsSent) + (if env.services.email.Some? then [mail] else [])
              && (mailFailed ==> reply == Fail(MailFailed(mailer(mail).reason)))
              && (!mailFailed ==> reply == Reply(200, Succeeded(Some(ResetSent), None, None)))
  {
    if !env.modelReady {
      return Fail(ModelNotSetUp);
    }
    var found := db.FindOne(email);
    if found.None? {
      return Error(404, UserNotFound);
    }
    var failure := out.Mail(env.services.email, ResetMailFor(found.value, now, env.config.baseUrl), mailer);
    if failure.Some? {
      return Fail(MailFailed(failure.value));
    }
    reply := Reply(200, Succeeded(Some(ResetSent), None, None));
  }

  /**
   * `POST /reset-password`: the purpose must be "password_reset". A new password the validator
   * refuses surfaces as the opaque token error. Only the password digest (and `updatedAt`) changes.
   */
  method ResetPassword(db: UserTable, env: RouteEnv, token: Jwt, newPassword: string, now: nat) returns (reply: Reply)
    requires db.Valid()
    modifies db
    ensures db.Valid() && Grows(old(db.users), db.users)
    ensures reply.status == 200 || reply.status == 400
    ensures Verify(token, now).Err? ==> reply == Error(400, BadReset) && unchanged(db)
    ensures Verify(token, now).Ok? && token.claims.purpose != Some(PasswordResetPurpose) ==>
              reply == Error(400, WrongResetPurpose) && unchanged(db)
    ensures Verify(token, now).Ok? && token.claims.purpose == Some(PasswordResetPurpose) ==>
              var id := token.claims.id;
              && (!env.modelReady ==> reply == Error(400, BadReset) && unchanged(db))
              && (env.modelReady && id !in old(db.users) ==> reply == Error(400, UserNotFound) && unchanged(db))
              && (env.modelReady && id in old(db.users) && Utf16Length(newPassword) < MinPasswordLength ==>
                    reply == Error(400, BadReset) && unchanged(db))
              && (env.modelReady && id in old(db.users) && Utf16Length(newPassword) >= MinPasswordLength ==>
                    && db.users == old(db.users)[id := old(db.users)[id].(password := Hashed(Hash(newPassword)), updatedAt := now)]
                    && reply == Reply(200, Succeeded(Some(PasswordWasReset), None, None)))
  {
    var claims := Verify(token, now);
    if claims.Err? {
      return Error(400, BadReset);
    }
    if claims.value.purpose != Some(PasswordResetPurpose) {
      return Error(400, WrongResetPurpose);
    }
    if !env.modelReady {
      return Error(400, BadReset);
    }
    var id := claims.value.id;
    if id !in db.users {
      return Error(400, UserNotFound);
    }
    var doc := db.users[id].(password := Plain(newPassword));
    EditIsSaveable(db.users, db.byEmail, db.nextId, db.users[id].(password := Hashed(Hash(newPassword))));
    var r := db.Update(doc, now);
    if r.Err? {
      return Error(400, BadReset);
    }
    reply := Reply(200, Succeeded(Some(PasswordWasReset), None, None));
  }
}
