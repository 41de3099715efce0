/**
 * The user schema of `src/models/User.js`: the record, the setters that normalise the email,
 * the validators, the pre-save rehash, password comparison, the plain-object and JSON views
 * of a record, and the three token generators.
 */
module UserModel {
  import opened Js
  import opened Tokens

  // ---------------------------------------------------------------------------
  // The `trim` and `lowercase` setters of the email path
  // ---------------------------------------------------------------------------

  /** The characters `String.prototype.trim` removes: ECMAScript WhiteSpace and LineTerminator. */
  predicate IsTrimmable(c: char) {
    || c == ' ' || c == '\t' || c == '\n' || c == '\r'
    || c == '\U{000B}' || c == '\U{000C}' || c == '\U{00A0}' || c == '\U{1680}'
    || ('\U{2000}' <= c <= '\U{200A}')
    || c == '\U{2028}' || c == '\U{2029}' || c == '\U{202F}' || c == '\U{205F}'
    || c == '\U{3000}' || c == '\U{FEFF}'
  }

  /** Cuts white space from the front: the result is a suffix, and everything cut is white space. */
  function TrimStart(s: string): (r: string)
    ensures |r| <= |s| && r == s[|s| - |r|..]
    ensures forall i :: 0 <= i < |s| - |r| ==> IsTrimmable(s[i])
    ensures r != [] ==> !IsTrimmable(r[0])
  {
    if s != [] && IsTrimmable(s[0]) then TrimStart(s[1..]) else s
  }

  /** Cuts white space from the back: the result is a prefix, and everything cut is white space. */
  function TrimEnd(s: string): (r: string)
    ensures |r| <= |s| && r == s[..|r|]
    ensures forall i :: |r| <= i < |s| ==> IsTrimmable(s[i])
    ensures r != [] ==> !IsTrimmable(r[|r| - 1])
  {
    if s != [] && IsTrimmable(s[|s| - 1]) then TrimEnd(s[..|s| - 1]) else s
  }

  /** The trimmed string neither starts nor ends with white space. */
  lemma TrimmedEnds(s: string)
    ensures var r := TrimEnd(TrimStart(s));
            r != [] ==> !IsTrimmable(r[0]) && !IsTrimmable(r[|r| - 1])
  {
    var t := TrimStart(s);
    var r := TrimEnd(t);
    if r != [] {
      assert r[0] == t[0];
    }
  }

  /** `s.trim()`: the front cut, then the back cut. */
  function Trim(s: string): (r: string)
    ensures r != [] ==> !IsTrimmable(r[0]) && !IsTrimmable(r[|r| - 1])
  {
    TrimmedEnds(s);
    TrimEnd(TrimStart(s))
  }

  /** `r` is the piece of `s` that starts at `k`, and everything around it is white space. */
  predicate KeptAt(s: string, r: string, k: nat) {
    && k + |r| <= |s| && r == s[k..k + |r|]
    && (forall i :: 0 <= i < k ==> IsTrimmable(s[i]))
    && (forall i :: k + |r| <= i < |s| ==> IsTrimmable(s[i]))
  }

  /** A prefix `r` of a suffix `t` of `s`, where both cuts are white space, is kept at `|s| - |t|`. */
  lemma KeptAtOfCuts(s: string, t: string, r: string)
    requires |t| <= |s| && t == s[|s| - |t|..] && (forall i :: 0 <= i < |s| - |t| ==> IsTrimmable(s[i]))
    requires |r| <= |t| && r == t[..|r|] && (forall i :: |r| <= i < |t| ==> IsTrimmable(t[i]))
    ensures KeptAt(s, r, |s| - |t|)
  {
    var k := |s| - |t|;
    forall i | k + |r| <= i < |s|
      ensures IsTrimmable(s[i])
    {
      assert s[i] == t[i - k];
    }
    assert s[k..k + |r|] == t[..|r|];
  }

  /**
   * What `trim` keeps is one contiguous piece of the input, and everything it cuts, in front
   * of that piece and behind it, is white space.
   */
  lemma TrimKeepsMiddle(s: string)
    ensures exists k: nat :: KeptAt(s, Trim(s), k)
  {
    var t := TrimStart(s);
    var r := TrimEnd(t);
    KeptAtOfCuts(s, t, r);
    assert Trim(s) == r;
    assert KeptAt(s, Trim(s), |s| - |t|);
  }

  /** ASCII case mapping; `toLowerCase` on other scripts is not part of this model. */
  function LowerChar(c: char): char {
    if 'A' <= c <= 'Z' then (c as int + 32) as char else c
  }

  function Lower(s: string): (r: string)
    ensures |r| == |s|
  {
    seq(|s|, i requires 0 <= i < |s| => LowerChar(s[i]))
  }

  /**
   * The stored form of an email. Mongoose runs the path's setters last-declared first, so
   * `lowercase` runs before `trim`; TrimLowerCommute shows the order makes no difference.
   */
  function NormalizeEmail(s: string): string {
    Trim(Lower(s))
  }

  /** No ASCII capital letter: what the `lowercase` setter leaves. */
  predicate LowerCase(s: string) {
    forall i :: 0 <= i < |s| ==> !('A' <= s[i] <= 'Z')
  }

  lemma LowerCharIsLower(c: char)
    ensures !('A' <= LowerChar(c) <= 'Z')
  {
  }

  lemma LowerIsLowerCase(s: string)
    ensures LowerCase(Lower(s))
  {
    forall i | 0 <= i < |s|
      ensures !('A' <= Lower(s)[i] <= 'Z')
    {
      LowerCharIsLower(s[i]);
    }
  }

  /** A slice of a string without capitals has none either. */
  lemma LowerCaseSlice(s: string, a: nat, b: nat)
    requires LowerCase(s) && a <= b <= |s|
    ensures LowerCase(s[a..b])
  {
    forall i | 0 <= i < b - a
      ensures !('A' <= s[a..b][i] <= 'Z')
    {
      assert s[a..b][i] == s[a + i];
    }
  }

  /** The stored form of any input has no capital letter left. */
  lemma NormalizedIsLowerCase(s: string)
    ensures LowerCase(NormalizeEmail(s))
  {
    var l := Lower(s);
    LowerIsLowerCase(s);
    var t := TrimStart(l);
    LowerCaseSlice(l, |l| - |t|, |l|);
    var r := TrimEnd(t);
    LowerCaseSlice(t, 0, |r|);
    assert NormalizeEmail(s) == r;
  }

  lemma {:induction false} TrimStartLowerCommute(s: string)
    ensures TrimStart(Lower(s)) == Lower(TrimStart(s))
    decreases |s|
  {
    if s != [] {
      assert Lower(s)[0] == LowerChar(s[0]);
      if IsTrimmable(s[0]) {
        assert Lower(s)[1..] == Lower(s[1..]);
        TrimStartLowerCommute(s[1..]);
      }
    }
  }

  lemma {:induction false} TrimEndLowerCommute(s: string)
    ensures TrimEnd(Lower(s)) == Lower(TrimEnd(s))
    decreases |s|
  {
    if s != [] {
      assert Lower(s)[|s| - 1] == LowerChar(s[|s| - 1]);
      if IsTrimmable(s[|s| - 1]) {
        assert Lower(s)[..|s| - 1] == Lower(s[..|s| - 1]);
        TrimEndLowerCommute(s[..|s| - 1]);
      }
    }
  }

  /** The `trim` and `lowercase` setters commute. */
  lemma TrimLowerCommute(s: string)
    ensures Trim(Lower(s)) == Lower(Trim(s))
  {
    TrimStartLowerCommute(s);
    TrimEndLowerCommute(TrimStart(s));
  }

  lemma LowerIdempotent(s: string)
    ensures Lower(Lower(s)) == Lower(s)
  {
  }

  lemma TrimIdempotent(s: string)
    ensures Trim(Trim(s)) == Trim(s)
  {
    var r := Trim(s);
    assert TrimStart(r) == r;
    assert TrimEnd(r) == r;
  }

  /** Normalising an already stored email changes nothing, so a lookup by stored email finds it. */
  lemma NormalizeIdempotent(s: string)
    ensures NormalizeEmail(NormalizeEmail(s)) == NormalizeEmail(s)
  {
    var l := Lower(s);
    TrimLowerCommute(l);
    LowerIdempotent(s);
    TrimIdempotent(l);
  }

  // ---------------------------------------------------------------------------
  // The `match` validator: /^\w+([.-]?\w+)*@\w+([.-]?\w+)*(\.\w{2,3})+$/
  // ---------------------------------------------------------------------------

  /** `\w`: an ASCII letter, digit or underscore. */
  predicate IsWordChar(c: char) {
    ('a' <= c <= 'z') || ('A' <= c <= 'Z') || ('0' <= c <= '9') || c == '_'
  }

  predicate IsSeparator(c: char) {
    c == '.' || c == '-'
  }

  predicate AllWordChars(s: string) {
    forall i :: 0 <= i < |s| ==> IsWordChar(s[i])
  }

  /**
   * The language of `\w+([.-]?\w+)*`: word characters, where a single `.` or `-` may stand
   * between two of them.
   */
  predicate IsDottedWord(s: string) {
    && |s| > 0
    && IsWordChar(s[0])
    && IsWordChar(s[|s| - 1])
    && (forall i :: 0 <= i < |s| ==> IsWordChar(s[i]) || IsSeparator(s[i]))
    && (forall i :: 0 <= i < |s| - 1 ==> IsSeparator(s[i]) ==> IsWordChar(s[i + 1]))
  }

  /**
   * The language of `\w+([.-]?\w+)*(\.\w{2,3})+`: a dotted word whose last part, of two or
   * three word characters, follows a `.`.
   */
  predicate IsDomain(d: string) {
    || (|d| >= 4 && d[|d| - 3] == '.' && IsDottedWord(d[..|d| - 3]) && AllWordChars(d[|d| - 2..]))
    || (|d| >= 5 && d[|d| - 4] == '.' && IsDottedWord(d[..|d| - 4]) && AllWordChars(d[|d| - 3..]))
  }

  /** An `@` at `i` splits `s` into a dotted word and a domain. */
  predicate SplitsAt(s: string, i: nat) {
    i < |s| && s[i] == '@' && IsDottedWord(s[..i]) && IsDomain(s[i + 1..])
  }

  /** Some `@` at or after `from` splits `s` as the pattern requires. */
  predicate SplitsFrom(s: string, from: nat)
    decreases |s| - from
  {
    from < |s| && (SplitsAt(s, from) || SplitsFrom(s, from + 1))
  }

  /** The whole pattern: the scan tries every `@` from the left. */
  predicate IsValidEmail(s: string) {
    SplitsFrom(s, 0)
  }

  lemma {:induction false} SplitsFromSomewhere(s: string, from: nat)
    ensures SplitsFrom(s, from) <==> exists i: nat :: from <= i && SplitsAt(s, i)
    decreases |s| - from
  {
    if from < |s| {
      SplitsFromSomewhere(s, from + 1);
      if SplitsFrom(s, from + 1) {
        var i: nat :| from + 1 <= i && SplitsAt(s, i);
        assert from <= i && SplitsAt(s, i);
      }
    } else {
      assert forall i: nat :: from <= i ==> !SplitsAt(s, i);
    }
  }

  /** The pattern accepts exactly the strings that some `@` splits into a dotted word and a domain. */
  lemma ValidEmailSplits(s: string)
    ensures IsValidEmail(s) <==> exists i: nat :: SplitsAt(s, i)
  {
    SplitsFromSomewhere(s, 0);
  }

  lemma WordCharIsKept(c: char)
    requires IsWordChar(c)
    ensures !IsTrimmable(c)
  {
  }

  /** A string the pattern accepts starts and ends with a word character, so `trim` keeps it. */
  lemma ValidEmailIsTrimmed(s: string)
    requires IsValidEmail(s)
    ensures Trim(s) == s
  {
    ValidEmailSplits(s);
    var i: nat :| SplitsAt(s, i);
    var d := s[i + 1..];
    assert s[0] == s[..i][0];
    assert |d| >= 4 && s[|s| - 1] == d[|d| - 1];
    assert IsWordChar(d[|d| - 1]);
    WordCharIsKept(s[0]);
    WordCharIsKept(s[|s| - 1]);
    assert TrimStart(s) == s;
    assert TrimEnd(s) == s;
  }

  /** Lower-casing leaves a string without capitals as it is. */
  lemma LowerKeepsLowerCase(s: string)
    requires LowerCase(s)
    ensures Lower(s) == s
  {
    assert forall i :: 0 <= i < |s| ==> Lower(s)[i] == s[i];
  }

  /** A lower-case address the pattern accepts is already in stored form. */
  lemma StoredFormIsNormal(s: string)
    requires IsValidEmail(s) && LowerCase(s)
    ensures NormalizeEmail(s) == s
  {
    LowerKeepsLowerCase(s);
    ValidEmailIsTrimmed(s);
  }

  /** The address used by the package's test suite is accepted. */
  lemma TestAddressIsValid()
    ensures IsValidEmail("test@example.com")
  {
    var s := "test@example.com";
    assert s[..4] == "test" && IsDottedWord("test");
    assert s[5..] == "example.com";
    ExampleDomain();
    assert SplitsAt(s, 4);
    ValidEmailSplits(s);
  }

  lemma ExampleDomain()
    ensures IsDomain("example.com")
  {
    var d := "example.com";
    assert d[..|d| - 4] == "example" && IsDottedWord("example");
    assert d[|d| - 3..] == "com" && AllWordChars("com");
  }

  // ---------------------------------------------------------------------------
  // Passwords
  // ---------------------------------------------------------------------------

  /** A bcrypt digest. Hashing is abstract: injective, and the random salt is not modelled. */
  datatype Digest = Digest(preimage: string)

  function Hash(p: string): Digest {
    Digest(p)
  }

  /** The `password` path: plaintext until the pre-save hook has run, a digest afterwards. */
  datatype Secret = Plain(text: string) | Hashed(digest: Digest)

  /** `comparePassword(c)`, i.e. `bcrypt.compare(c, this.password)`; a non-digest never matches. */
  function Compare(candidate: string, stored: Secret): (r: bool)
    ensures forall p :: stored == Hashed(Hash(p)) ==> (r <==> candidate == p)
    ensures stored.Plain? ==> !r
  {
    stored == Hashed(Hash(candidate))
  }

  /** What the pre-save hook leaves in the `password` path. */
  function Rehash(s: Secret): (r: Secret)
    ensures r.Hashed?
    ensures s.Plain? ==> forall c :: Compare(c, r) <==> c == s.text
    ensures s.Hashed? ==> forall c :: Compare(c, r) <==> Compare(c, s)
  {
    match s
    case Plain(p) => Hashed(Hash(p))
    case Hashed(_) => s
  }

  // ---------------------------------------------------------------------------
  // The record
  // ---------------------------------------------------------------------------

  const Roles: set<string> := {"user", "admin", "moderator"}
  const DefaultRole := "user"
  const MinPasswordLength: nat := 6

  /** A user document. Times are numbers; `id` is `_id`. */
  datatype User = User(
    id: UserId,
    email: string,
    password: Secret,
    firstName: Option<string>,
    lastName: Option<string>,
    isVerified: bool,
    role: string,
    lastLogin: Option<nat>,
    createdAt: nat,
    updatedAt: nat,
    resetPasswordToken: Option<string>,
    resetPasswordExpires: Option<nat>,
    verificationToken: Option<string>,
    verificationTokenExpires: Option<nat>)

  /** The fields a caller hands to `new User(...)`; `None` is a field the caller leaves out. */
  datatype UserData = UserData(
    email: string,
    password: string,
    firstName: Option<string>,
    lastName: Option<string>,
    isVerified: Option<bool>,
    role: Option<string>)

  function TrimOption(s: Option<string>): Option<string> {
    if s.Some? then Some(Trim(s.value)) else None
  }

  /**
   * `new User(data)`: the setters run on assignment and the defaults fill what is left out.
   * Mongoose draws the `_id` in the constructor already; here the collection hands out the
   * fresh id when the record is first saved, and the timestamps are set by that save.
   */
  function NewDoc(data: UserData): (u: User)
    ensures u.email == NormalizeEmail(data.email) && NormalizeEmail(u.email) == u.email && LowerCase(u.email)
    ensures data.isVerified.None? ==> !u.isVerified
    ensures data.isVerified.Some? ==> u.isVerified == data.isVerified.value
    ensures data.role.None? ==> u.role == DefaultRole && u.role in Roles
    ensures data.role.Some? ==> u.role == data.role.value
    ensures u.firstName == TrimOption(data.firstName) && u.lastName == TrimOption(data.lastName)
    ensures u.password == Plain(data.password)
  {
    NormalizeIdempotent(data.email);
    NormalizedIsLowerCase(data.email);
    User(
      0, NormalizeEmail(data.email), Plain(data.password),
      TrimOption(data.firstName), TrimOption(data.lastName),
      if data.isVerified.Some? then data.isVerified.value else false,
      if data.role.Some? then data.role.value else DefaultRole,
      None, 0, 0, None, None, None, None)
  }

  // ---------------------------------------------------------------------------
  // Validation, run by `save()` before the pre-save hook
  // ---------------------------------------------------------------------------

  datatype ValidationError =
    | EmailRequired
    | EmailInvalid       // "Please enter a valid email"
    | PasswordRequired
    | PasswordTooShort   // "Password must be at least 6 characters long"
    | RoleNotAllowed(role: string)

  /**
   * `v.length` of a JavaScript string: UTF-16 code units, so a character outside the Basic
   * Multilingual Plane counts twice.
   */
  function Utf16Length(s: string): (n: nat)
    ensures |s| <= n <= 2 * |s|
    ensures n == 0 <==> s == []
  {
    if s == [] then 0 else (if s[0] < '\U{10000}' then 1 else 2) + Utf16Length(s[1..])
  }

  /** Three astral characters are six code units: long enough for `minlength`. */
  lemma AstralPasswordIsLongEnough()
    ensures Utf16Length("\U{1F600}\U{1F600}\U{1F600}") == 6
    ensures PasswordErrors(Plain("\U{1F600}\U{1F600}\U{1F600}")) == []
  {
    var p := "\U{1F600}\U{1F600}\U{1F600}";
    assert p[1..] == "\U{1F600}\U{1F600}" && p[1..][1..] == "\U{1F600}";
    assert p[1..][1..][1..] == "";
  }

  /** What the validators accept. A digest is 60 characters long, so it passes `minlength`. */
  predicate Admissible(u: User) {
    && IsValidEmail(u.email)
    && (u.password.Plain? ==> Utf16Length(u.password.text) >= MinPasswordLength)
    && u.role in Roles
  }

  function EmailErrors(email: string): seq<ValidationError> {
    if email == "" then [EmailRequired]
    else if !IsValidEmail(email) then [EmailInvalid]
    else []
  }

  function PasswordErrors(p: Secret): seq<ValidationError> {
    match p
    case Hashed(_) => []
    case Plain(t) =>
      if t == "" then [PasswordRequired]
      else if Utf16Length(t) < MinPasswordLength then [PasswordTooShort]
      else []
  }

  function RoleErrors(role: string): seq<ValidationError> {
    if role in Roles then [] else [RoleNotAllowed(role)]
  }

  /** The errors of one `validate()`, path by path in schema order. */
  function Validate(u: User): (errs: seq<ValidationError>)
    ensures errs == [] <==> Admissible(u)
    ensures PasswordTooShort in errs <==> u.password.Plain? && 0 < Utf16Length(u.password.text) < MinPasswordLength
    ensures EmailInvalid in errs <==> u.email != "" && !IsValidEmail(u.email)
    ensures RoleNotAllowed(u.role) in errs <==> u.role !in Roles
  {
    assert !IsValidEmail("");
    EmailErrors(u.email) + PasswordErrors(u.password) + RoleErrors(u.role)
  }

  /** The pre-save hook: rehash only when the password path was modified, i.e. holds plaintext. */
  method PreSave(doc: User) returns (saved: User)
    ensures saved == doc.(password := Rehash(doc.password))
    ensures saved.password.Hashed?
    ensures doc.password.Plain? ==> forall c :: Compare(c, saved.password) <==> c == doc.password.text
    ensures doc.password.Hashed? ==> saved == doc
  {
    saved := doc;
    if saved.password.Plain? {
      saved := saved.(password := Hashed(Hash(saved.password.text)));
    }
  }

  // ---------------------------------------------------------------------------
  // Plain-object and JSON views
  // ---------------------------------------------------------------------------

  datatype Value = Str(s: string) | Bool(b: bool) | Num(n: nat) | Pw(secret: Secret)

  /** A plain JavaScript object: field name to value. */
  type Snapshot = map<string, Value>

  function WithStr(o: Snapshot, key: string, v: Option<string>): Snapshot {
    if v.Some? then o[key := Str(v.value)] else o
  }

  function WithNum(o: Snapshot, key: string, v: Option<nat>): Snapshot {
    if v.Some? then o[key := Num(v.value)] else o
  }

  /**
   * `user.toObject()`: every set path, the password digest included, and the version key.
   * The contract covers the five keys that are always present.
   */
  function ToObject(u: User): (o: Snapshot)
    ensures "password" in o && o["password"] == Pw(u.password)
    ensures "_id" in o && o["_id"] == Num(u.id)
    ensures "email" in o && o["email"] == Str(u.email)
    ensures "isVerified" in o && o["isVerified"] == Bool(u.isVerified)
    ensures "role" in o && o["role"] == Str(u.role)
  {
    var optional :=
      WithNum(WithStr(WithNum(WithStr(WithNum(WithStr(WithStr(map[],
        "firstName", u.firstName), "lastName", u.lastName), "lastLogin", u.lastLogin),
        "resetPasswordToken", u.resetPasswordToken), "resetPasswordExpires", u.resetPasswordExpires),
        "verificationToken", u.verificationToken), "verificationTokenExpires", u.verificationTokenExpires);
    optional["__v" := Num(0)]["createdAt" := Num(u.createdAt)]["updatedAt" := Num(u.updatedAt)]
      ["role" := Str(u.role)]["isVerified" := Bool(u.isVerified)]["email" := Str(u.email)]
      ["_id" := Num(u.id)]["password" := Pw(u.password)]
  }

  const Redacted: set<string> :=
    {"password", "resetPasswordToken", "resetPasswordExpires", "verificationToken", "verificationTokenExpires"}

  /** The `toJSON` transform: deletes the five secret paths from `ret` and keeps the rest. */
  method RedactForJson(ret: Snapshot) returns (out: Snapshot)
    ensures out.Keys == ret.Keys - Redacted
    ensures forall k :: k in out ==> out[k] == ret[k]
  {
    out := ret;
    out := out - {"password"};
    out := out - {"resetPasswordToken"};
    out := out - {"resetPasswordExpires"};
    out := out - {"verificationToken"};
    out := out - {"verificationTokenExpires"};
  }

  // ---------------------------------------------------------------------------
  // Token generators
  // ---------------------------------------------------------------------------

  /** `generateAuthToken`: identity, email, role and verification flag, no purpose, 7 days. */
  function AuthToken(u: User, now: nat): (t: Jwt)
    ensures t.claims == Claims(u.id, None, Some(u.email), Some(u.role), Some(u.isVerified))
    ensures forall later: nat :: Verify(t, later).Ok? <==> later < now + SessionTtl
  {
    Sign(Claims(u.id, None, Some(u.email), Some(u.role), Some(u.isVerified)), now, SessionTtl)
  }

  /** `generateVerificationToken`: identity and purpose "email_verification", 24 hours. */
  function VerificationToken(u: User, now: nat): (t: Jwt)
    ensures t.claims == Claims(u.id, Some(EmailVerificationPurpose), None, None, None)
    ensures forall later: nat :: Verify(t, later).Ok? <==> later < now + VerificationTtl
  {
    Sign(Claims(u.id, Some(EmailVerificationPurpose), None, None, None), now, VerificationTtl)
  }

  /** `generateResetToken`: identity and purpose "password_reset", 1 hour. */
  function ResetToken(u: User, now: nat): (t: Jwt)
    ensures t.claims == Claims(u.id, Some(PasswordResetPurpose), None, None, None)
    ensures forall later: nat :: Verify(t, later).Ok? <==> later < now + ResetTtl
  {
    Sign(Claims(u.id, Some(PasswordResetPurpose), None, None, None), now, ResetTtl)
  }

  /** The three generators give three different purposes, and the shorter-lived tokens expire first. */
  lemma TokenKindsDiffer(u: User, now: nat)
    ensures AuthToken(u, now).claims.purpose.None?
    ensures VerificationToken(u, now).claims.purpose != ResetToken(u, now).claims.purpose
    ensures ResetToken(u, now).exp < VerificationToken(u, now).exp < AuthToken(u, now).exp
  {
  }
}
