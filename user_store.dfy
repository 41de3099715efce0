/**
 * The `users` collection behind the `User` model: records by `_id`, the unique index on
 * `email`, and the two kinds of `save()` the package performs (the first save of a new
 * document, and the save of a document loaded with `findOne`/`findById`).
 */
module UserStore {
  import opened Js
  import opened Tokens
  import opened UserModel
  import opened Http

  /** A record as the collection holds it: it passed validation, its password is a digest, its email is in stored form. */
  predicate Persisted(u: User) {
    Admissible(u) && u.password.Hashed? && LowerCase(u.email)
  }

  /** Some record other than `except` holds the email `e`. */
  predicate EmailTaken(users: map<UserId, User>, e: string, except: Option<UserId>) {
    exists id :: id in users && users[id].email == e && Some(id) != except
  }

  /** The unique index on `email` agrees with the records in both directions. */
  predicate IndexSound(users: map<UserId, User>, byEmail: map<string, UserId>) {
    && (forall e :: e in byEmail ==> byEmail[e] in users && users[byEmail[e]].email == e)
    && (forall id :: id in users ==> users[id].email in byEmail && byEmail[users[id].email] == id)
  }

  predicate AllPersisted(users: map<UserId, User>) {
    forall id :: id in users ==> Persisted(users[id])
  }

  /** Every record is kept under its own `_id`, below the next fresh id. */
  predicate KeyedBelow(users: map<UserId, User>, nextId: UserId) {
    forall id :: id in users ==> id < nextId && users[id].id == id
  }

  /** The collection invariant: every record persisted under its own `_id`, below the next fresh id, and indexed. */
  predicate Indexed(users: map<UserId, User>, byEmail: map<string, UserId>, nextId: UserId) {
    KeyedBelow(users, nextId) && AllPersisted(users) && IndexSound(users, byEmail)
  }

  /** Storing a persisted record keeps every record persisted. */
  lemma PutKeepsPersisted(users: map<UserId, User>, k: UserId, u: User)
    requires AllPersisted(users) && Persisted(u)
    ensures AllPersisted(users[k := u])
  {
    var users' := users[k := u];
    forall id | id in users'
      ensures Persisted(users'[id])
    {
      if id != k {
        assert users'[id] == users[id];
      }
    }
  }

  /** The unique index makes emails unique across records. */
  lemma EmailsUnique(users: map<UserId, User>, byEmail: map<string, UserId>, i: UserId, j: UserId)
    requires IndexSound(users, byEmail)
    requires i in users && j in users && users[i].email == users[j].email
    ensures i == j
  {
    assert byEmail[users[i].email] == i;
    assert byEmail[users[j].email] == j;
  }

  /** The index answers whether an email is held by a record other than `except`. */
  lemma IndexAnswersTaken(users: map<UserId, User>, byEmail: map<string, UserId>, e: string, except: Option<UserId>)
    requires IndexSound(users, byEmail)
    ensures EmailTaken(users, e, except) <==> e in byEmail && Some(byEmail[e]) != except
  {
    if e in byEmail && Some(byEmail[e]) != except {
      assert users[byEmail[e]].email == e;
    }
    if EmailTaken(users, e, except) {
      var id :| id in users && users[id].email == e && Some(id) != except;
      assert byEmail[e] == id;
    }
  }

  /**
   * A stored record edited in paths other than `email` and `role`, with a digest as password,
   * passes validation again, and its email is held by no other record.
   */
  lemma EditIsSaveable(users: map<UserId, User>, byEmail: map<string, UserId>, nextId: UserId, doc: User)
    requires Indexed(users, byEmail, nextId) && doc.id in users && doc.password.Hashed?
    requires doc.email == users[doc.id].email && doc.role == users[doc.id].role
    ensures Validate(doc) == [] && LowerCase(doc.email) && !EmailTaken(users, doc.email, Some(doc.id))
  {
    assert Persisted(users[doc.id]);
    IndexAnswersTaken(users, byEmail, doc.email, Some(doc.id));
  }

  /** An index probe: the `_id` stored under the normalised email, if any. */
  function Lookup(users: map<UserId, User>, byEmail: map<string, UserId>, email: string): (r: Option<UserId>)
    requires IndexSound(users, byEmail)
    ensures r.Some? ==> r.value in users && users[r.value].email == NormalizeEmail(email)
    ensures r.None? <==> !EmailTaken(users, NormalizeEmail(email), None)
  {
    var e := NormalizeEmail(email);
    if e in byEmail then Some(byEmail[e]) else None
  }

  /** A validated document in stored form stays persistable through either kind of save. */
  lemma StoredIsPersisted(doc: User, id: UserId, now: nat)
    requires Validate(doc) == [] && LowerCase(doc.email)
    ensures Persisted(Stored(doc, id, now))
  {
  }

  lemma ResavedIsPersisted(doc: User, now: nat)
    requires Validate(doc) == [] && LowerCase(doc.email)
    ensures Persisted(Resaved(doc, now))
  {
  }

  /** Adding a persisted record under the next fresh id, with an email not yet indexed, keeps the invariant. */
  lemma InsertKeepsIndexed(users: map<UserId, User>, byEmail: map<string, UserId>, nextId: UserId, u: User)
    requires Indexed(users, byEmail, nextId) && u.id == nextId && Persisted(u) && u.email !in byEmail
    ensures nextId !in users
    ensures Indexed(users[nextId := u], byEmail[u.email := nextId], nextId + 1)
  {
    PutKeepsPersisted(users, nextId, u);
  }

  /** Replacing a record by a persisted one under the same id, with an email no other record holds, keeps the invariant. */
  lemma ReplaceKeepsIndexed(users: map<UserId, User>, byEmail: map<string, UserId>, nextId: UserId, u: User)
    requires Indexed(users, byEmail, nextId) && u.id in users && Persisted(u)
    requires u.email !in byEmail || byEmail[u.email] == u.id
    ensures Indexed(users[u.id := u], (byEmail - {users[u.id].email})[u.email := u.id], nextId)
  {
    PutKeepsPersisted(users, u.id, u);
    ReplaceKeepsIndexSound(users, byEmail, u);
  }

  /** The index side of a replacement: the old email leaves the index and the new one points at the record. */
  lemma ReplaceKeepsIndexSound(users: map<UserId, User>, byEmail: map<string, UserId>, u: User)
    requires IndexSound(users, byEmail) && u.id in users
    requires u.email !in byEmail || byEmail[u.email] == u.id
    ensures IndexSound(users[u.id := u], (byEmail - {users[u.id].email})[u.email := u.id])
  {
    var previous := users[u.id].email;
    var users', byEmail' := users[u.id := u], (byEmail - {previous})[u.email := u.id];
    forall e | e in byEmail'
      ensures byEmail'[e] in users' && users'[byEmail'[e]].email == e
    {
      if e != u.email {
        var id := byEmail[e];
        assert id != u.id;
      }
    }
    forall id | id in users'
      ensures users'[id].email in byEmail' && byEmail'[users'[id].email] == id
    {
      if id != u.id {
        var e := users[id].email;
        assert byEmail[e] == id;
        assert e != previous;
      }
    }
  }

  /** Across any operation: no record disappears, no email changes, and `isVerified` never goes back to false. */
  predicate Grows(before: map<UserId, User>, after: map<UserId, User>) {
    forall id :: id in before ==>
      && id in after
      && after[id].email == before[id].email
      && (before[id].isVerified ==> after[id].isVerified)
  }

  lemma GrowsByEdit(before: map<UserId, User>, id: UserId, v: User)
    requires id in before && v.email == before[id].email && (before[id].isVerified ==> v.isVerified)
    ensures Grows(before, before[id := v])
  {
  }

  lemma GrowsByAdding(before: map<UserId, User>, id: UserId, v: User)
    requires id !in before
    ensures Grows(before, before[id := v])
  {
  }

  /** What the first save writes: a fresh `_id`, both timestamps, and the password through the pre-save hook. */
  function Stored(doc: User, id: UserId, now: nat): User {
    doc.(id := id, password := Rehash(doc.password), createdAt := now, updatedAt := now)
  }

  /** What a later save writes when some path was modified: the pre-save hook's password and a new `updatedAt`. */
  function Resaved(doc: User, now: nat): User {
    doc.(password := Rehash(doc.password), updatedAt := now)
  }

  class UserTable {
    var users: map<UserId, User>
    var byEmail: map<string, UserId>
    var nextId: UserId

    ghost predicate Valid()
      reads this
    {
      Indexed(users, byEmail, nextId)
    }

    constructor ()
      ensures Valid() && users == map[] && byEmail == map[]
    {
      users := map[];
      byEmail := map[];
      nextId := 1;
    }

    /** `User.findOne({ email })`: the query filter goes through the same setters as the path. */
    function FindOne(email: string): (r: Option<User>)
      reads this
      requires Valid()
      ensures r.Some? ==> r.value.id in users && users[r.value.id] == r.value && r.value.email == NormalizeEmail(email)
      ensures r.None? <==> !EmailTaken(users, NormalizeEmail(email), None)
    {
      var k := Lookup(users, byEmail, email);
      if k.Some? then Some(users[k.value]) else None
    }

    /**
     * `new User(...).save()`: validation first, then the pre-save hook, then the insert, which
     * the unique index refuses when the email is taken. A refused save writes nothing.
     */
    method Insert(doc: User, now: nat) returns (r: Result<User, Fault>)
      requires Valid() && LowerCase(doc.email)
      modifies this
      ensures Valid()
      ensures Validate(doc) != [] ==> r == Err(Invalid(Validate(doc))) && unchanged(this)
      ensures Validate(doc) == [] && EmailTaken(old(users), doc.email, None) ==>
                r == Err(DuplicateKey(doc.email)) && unchanged(this)
      ensures Validate(doc) == [] && !EmailTaken(old(users), doc.email, None) ==>
                && r == Ok(Stored(doc, old(nextId), now))
                && old(nextId) !in old(users)
                && users == old(users)[old(nextId) := r.value]
                && nextId == old(nextId) + 1
    {
      var errs := Validate(doc);
      if errs != [] {
        return Err(Invalid(errs));
      }
      var saved := PreSave(doc);
      IndexAnswersTaken(users, byEmail, doc.email, None);
      if doc.email in byEmail {
        return Err(DuplicateKey(doc.email));
      }
      saved := saved.(id := nextId, createdAt := now, updatedAt := now);
      StoredIsPersisted(doc, nextId, now);
      InsertKeepsIndexed(users, byEmail, nextId, saved);
      users := users[nextId := saved];
      byEmail := byEmail[doc.email := nextId];
      nextId := nextId + 1;
      r := Ok(saved);
    }

    /**
     * `doc.save()` for a document loaded from the collection. Nothing is written when no path
     * was modified; otherwise validation, the pre-save hook and the unique index apply as on
     * insert, and `updatedAt` moves to `now`.
     */
    method Update(doc: User, now: nat) returns (r: Result<User, Fault>)
      requires Valid() && doc.id in users && LowerCase(doc.email)
      modifies this
      ensures Valid() && nextId == old(nextId)
      ensures Validate(doc) != [] ==> r == Err(Invalid(Validate(doc))) && unchanged(this)
      ensures Validate(doc) == [] && EmailTaken(old(users), doc.email, Some(doc.id)) ==>
                r == Err(DuplicateKey(doc.email)) && unchanged(this)
      ensures Validate(doc) == [] && !EmailTaken(old(users), doc.email, Some(doc.id)) && doc == old(users)[doc.id] ==>
                r == Ok(doc) && unchanged(this)
      ensures Validate(doc) == [] && !EmailTaken(old(users), doc.email, Some(doc.id)) && doc != old(users)[doc.id] ==>
                r == Ok(Resaved(doc, now)) && users == old(users)[doc.id := r.value]
    {
      var errs := Validate(doc);
      if errs != [] {
        return Err(Invalid(errs));
      }
      IndexAnswersTaken(users, byEmail, doc.email, Some(doc.id));
      if doc.email in byEmail && byEmail[doc.email] != doc.id {
        return Err(DuplicateKey(doc.email));
      }
      if doc == users[doc.id] {
        return Ok(doc);
      }
      var saved := PreSave(doc);
      saved := saved.(updatedAt := now);
      ResavedIsPersisted(doc, now);
      Put(saved);
      r := Ok(saved);
    }

    /**
     * The save of a loaded record whose `email`, `role` and password digest were left alone:
     * validation and the unique index cannot refuse it.
     */
    method Edit(doc: User, now: nat) returns (saved: User)
      requires Valid() && doc.id in users && doc.password.Hashed?
      requires doc.email == users[doc.id].email && doc.role == users[doc.id].role
      modifies this
      ensures Valid() && nextId == old(nextId)
      ensures saved == if doc == old(users)[doc.id] then doc else doc.(updatedAt := now)
      ensures users == old(users)[doc.id := saved]
    {
      EditIsSaveable(users, byEmail, nextId, doc);
      var r := Update(doc, now);
      saved := r.value;
    }

    /** The write of a modified record: the record and its index entry are replaced. */
    method Put(u: User)
      requires Valid() && u.id in users && Persisted(u)
      requires u.email !in byEmail || byEmail[u.email] == u.id
      modifies this
      ensures Valid() && users == old(users)[u.id := u] && nextId == old(nextId)
    {
      ReplaceKeepsIndexed(users, byEmail, nextId, u);
      byEmail := (byEmail - {users[u.id].email})[u.email := u.id];
      users := users[u.id := u];
    }
  }
}
