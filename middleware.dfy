/**
 * `src/middleware/auth.js`: the token is taken from the `Authorization` header, verified, and
 * the user it names is loaded; any failure ends the request with a 401. The token text is
 * turned into a token value by `decode`, which stands for parsing the compact serialisation.
 */
module Middleware {
  import opened Js
  import opened Tokens
  import opened UserModel
  import opened Http

  const Scheme := "Bearer "

  const NoToken := "Access denied. No token provided."
  const BadToken := "Invalid token."
  const UnknownUser := "Invalid token. User not found."

  predicate OccursAt(s: string, pat: string, k: nat) {
    k + |pat| <= |s| && s[k..k + |pat|] == pat
  }

  /** The first index at or after `from` where `pat` occurs in `s`. */
  function FindFrom(s: string, pat: string, from: nat): (r: Option<nat>)
    requires from <= |s|
    ensures r.Some? ==> from <= r.value && OccursAt(s, pat, r.value)
    ensures r.Some? ==> forall j :: from <= j < r.value ==> !OccursAt(s, pat, j)
    ensures r.None? ==> forall j :: from <= j <= |s| ==> !OccursAt(s, pat, j)
    decreases |s| - from
  {
    if OccursAt(s, pat, from) then Some(from)
    else if from == |s| then None
    else FindFrom(s, pat, from + 1)
  }

  /** `s.replace(pat, rep)` with a string pattern: only the first occurrence is replaced. */
  function ReplaceFirst(s: string, pat: string, rep: string): (r: string)
    ensures (forall j :: 0 <= j <= |s| ==> !OccursAt(s, pat, j)) ==> r == s
    ensures forall k: nat :: OccursAt(s, pat, k) && (forall j :: 0 <= j < k ==> !OccursAt(s, pat, j)) ==>
              r == s[..k] + rep + s[k + |pat|..]
  {
    match FindFrom(s, pat, 0)
    case None => s
    case Some(k) => s[..k] + rep + s[k + |pat|..]
  }

  /** `req.header("Authorization")?.replace("Bearer ", "")`: `None` when the header is absent. */
  function ExtractToken(header: Option<string>): Option<string> {
    if header.None? then None else Some(ReplaceFirst(header.value, Scheme, ""))
  }

  /** A header in the form RFC 6750 describes yields exactly the credentials after the scheme. */
  lemma BearerHeaderYieldsToken(t: string)
    ensures ExtractToken(Some(Scheme + t)) == Some(t)
  {
    var h := Scheme + t;
    assert OccursAt(h, Scheme, 0);
    assert h[|Scheme|..] == t;
    assert ReplaceFirst(h, Scheme, "") == h[..0] + "" + h[|Scheme|..];
    assert h[..0] + "" + h[|Scheme|..] == t;
  }

  /** A header without the scheme anywhere in it is taken as the token unchanged. */
  lemma BareHeaderIsToken(h: string)
    requires forall j :: 0 <= j <= |h| ==> !OccursAt(h, Scheme, j)
    ensures ExtractToken(Some(h)) == Some(h)
  {
  }

  /**
   * The scheme is removed wherever it first occurs, not only at the start, so a header that
   * section 2.1 of RFC 6750 would refuse still yields a token.
   */
  lemma SchemeRemovedAnywhere()
    ensures ExtractToken(Some("Basic Bearer abc")) == Some("Basic abc")
  {
    var prefix, rest := "Basic ", "abc";
    var h := prefix + Scheme + rest;
    assert h == "Basic Bearer abc";
    forall j | 0 <= j < |prefix|
      ensures !OccursAt(h, Scheme, j)
    {
      if j == 0 {
        assert h[1] == prefix[1] != Scheme[1];
      } else {
        assert h[j] == prefix[j] != Scheme[0];
      }
    }
    assert h[..|prefix|] == prefix && h[|prefix|..|prefix| + |Scheme|] == Scheme && h[|prefix| + |Scheme|..] == rest;
    assert ReplaceFirst(h, Scheme, "") == prefix + "" + rest;
    assert prefix + "" + rest == "Basic abc";
  }

  /** The outcome of the middleware: a 401 reply, or the user and token it attaches before `next()`. */
  datatype Decision = Deny(reply: Reply) | Pass(user: User, token: string)

  /**
   * The middleware's decision. `findById` goes to the collection directly, so it does not
   * depend on the router's models. No claim other than `_id` is looked at.
   */
  function Decide(header: Option<string>, decode: string -> Jwt, users: map<UserId, User>, now: nat): (d: Decision)
    ensures d == Deny(Error(401, NoToken)) <==> ExtractToken(header).None? || ExtractToken(header) == Some("")
    ensures d.Pass? <==>
              && ExtractToken(header).Some? && ExtractToken(header) != Some("")
              && Verify(decode(ExtractToken(header).value), now).Ok?
              && Verify(decode(ExtractToken(header).value), now).value.id in users
    ensures d.Pass? ==>
              var t := ExtractToken(header).value;
              d.token == t && d.user == users[decode(t).claims.id]
    ensures d.Deny? ==> d.reply in {Error(401, NoToken), Error(401, BadToken), Error(401, UnknownUser)}
    ensures d == Deny(Error(401, BadToken)) <==>
              ExtractToken(header).Some? && ExtractToken(header) != Some("") && Verify(decode(ExtractToken(header).value), now).Err?
    ensures d == Deny(Error(401, UnknownUser)) <==>
              && ExtractToken(header).Some? && ExtractToken(header) != Some("")
              && Verify(decode(ExtractToken(header).value), now).Ok?
              && Verify(decode(ExtractToken(header).value), now).value.id !in users
  {
    var token := ExtractToken(header);
    if token.None? || token.value == "" then Deny(Error(401, NoToken))
    else
      match Verify(decode(token.value), now)
      case Err(_) => Deny(Error(401, BadToken))
      case Ok(claims) =>
        if claims.id in users then Pass(users[claims.id], token.value) else Deny(Error(401, UnknownUser))
  }

  /**
   * The purpose claim is never read: a password-reset token of a stored user, presented before
   * it expires, opens any protected route.
   */
  lemma ResetTokenAuthorises(users: map<UserId, User>, u: User, issued: nat, now: nat, text: string, decode: string -> Jwt)
    requires u.id in users && text != "" && decode(text) == ResetToken(u, issued) && now < issued + ResetTtl
    ensures Decide(Some(Scheme + text), decode, users, now) == Pass(users[u.id], text)
  {
    BearerHeaderYieldsToken(text);
  }

  /** The same holds for an email-verification token. */
  lemma VerificationTokenAuthorises(users: map<UserId, User>, u: User, issued: nat, now: nat, text: string, decode: string -> Jwt)
    requires u.id in users && text != "" && decode(text) == VerificationToken(u, issued) && now < issued + VerificationTtl
    ensures Decide(Some(Scheme + text), decode, users, now) == Pass(users[u.id], text)
  {
    BearerHeaderYieldsToken(text);
  }

  /** The request as the middleware sees and changes it. */
  class Req {
    var authorization: Option<string>
    var user: Option<User>
    var token: Option<string>
    var response: Option<Reply>
    var nextCalled: bool

    constructor (authorization: Option<string>)
      ensures this.authorization == authorization && user.None? && token.None? && response.None? && !nextCalled
    {
      this.authorization := authorization;
      user := None;
      token := None;
      response := None;
      nextCalled := false;
    }

    /** The middleware run on this request: either a 401 is sent, or `req.user`/`req.token` are set and `next()` is called. */
    method Authenticate(decode: string -> Jwt, users: map<UserId, User>, now: nat)
      modifies this
      ensures authorization == old(authorization)
      ensures Decide(authorization, decode, users, now).Deny? ==>
                && response == Some(Decide(authorization, decode, users, now).reply)
                && nextCalled == old(nextCalled) && user == old(user) && token == old(token)
      ensures Decide(authorization, decode, users, now).Pass? ==>
                && user == Some(Decide(authorization, decode, users, now).user)
                && token == Some(Decide(authorization, decode, users, now).token)
                && nextCalled && response == old(response)
    {
      var d := Decide(authorization, decode, users, now);
      match d
      case Deny(reply) =>
        response := Some(reply);
      case Pass(u, t) =>
        user := Some(u);
        token := Some(t);
        nextCalled := true;
    }
  }
}
