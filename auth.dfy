/**
 * Request authentication (src/middleware/auth.ts, `verifyToken`). The token
 * is presented either in an `Authorization: Bearer <token>` header, which
 * takes priority, or in the legacy composite session parameter
 * `session:token`. The transport-safe substitution is undone and bcrypt's
 * `compare` decides; `compare` is a parameter of the model.
 */
module Auth {
  import opened Wrappers
  import opened Text
  import opened SessionRegistry
  import opened EncryptController

  datatype AuthFailure =
    | SessionNotInformed       // 401 { message: "Session not informed" }
    | TokenNotPresent          // 401 { message: "Token is not present. Check your header and try again" }
    | TokenMismatch            // 401 { error: "Check that the Session and Token are correct" }

  function FailureMessage(f: AuthFailure): string {
    match f
    case SessionNotInformed => "Session not informed"
    case TokenNotPresent => "Token is not present. Check your header and try again"
    case TokenMismatch => "Check that the Session and Token are correct"
  }

  /** What the middleware extracts before hashing: a 401, or a session name and a bcrypt hash to compare. */
  datatype Credentials = Refuse(failure: AuthFailure) | Check(name: string, hash: string)

  datatype AuthResult =
    | Unauthorized(failure: AuthFailure)
    | Authorized(session: string, token: string, client: Option<Client>)

  /** `.replace(/_/g, '/').replace(/-/g, '+')`: the inverse of the transport-safe substitution. */
  function RestoreHash(token: string): (h: string)
    ensures |h| == |token|
    ensures '_' !in h && '-' !in h
    ensures forall i :: 0 <= i < |token| && token[i] != '_' && token[i] != '-' ==> h[i] == token[i]
    ensures forall i :: 0 <= i < |token| && token[i] == '_' ==> h[i] == '/'
    ensures forall i :: 0 <= i < |token| && token[i] == '-' ==> h[i] == '+'
  {
    ReplaceChar(ReplaceChar(token, '_', '/'), '-', '+')
  }

  /** JavaScript truthiness of an optional string. */
  predicate Present(s: Option<string>) {
    s.Some? && s.value != ""
  }

  predicate IsBearer(authorization: Option<string>) {
    authorization.Some? && StartsWith(authorization.value, "Bearer ")
  }

  /**
   * Selection of the presentation form. A missing `session` is refused
   * first; a Bearer header wins over the legacy form, its token being the
   * second space-separated piece and the name the part of `session` before
   * the first `:`; otherwise a `session` holding `:` is split into name and
   * token; with neither form the token is not present.
   */
  function SelectCredentials(sessionParam: Option<string>, authorization: Option<string>): (r: Credentials)
    ensures !Present(sessionParam) <==> r == Refuse(SessionNotInformed)
    ensures Present(sessionParam) && IsBearer(authorization) ==>
              r == (match Segment(authorization.value, ' ', 1)
                    case Some(t) => if t != "" then Check(Split(sessionParam.value, ':')[0], RestoreHash(t))
                                    else Refuse(TokenNotPresent)
                    case None => Refuse(TokenNotPresent))
    ensures Present(sessionParam) && !IsBearer(authorization) ==>
              r == (if ':' in sessionParam.value
                    then Check(Split(sessionParam.value, ':')[0], RestoreHash(Split(sessionParam.value, ':')[1]))
                    else Refuse(TokenNotPresent))
    ensures r.Check? ==> ':' !in r.name && StartsWith(sessionParam.value, r.name)
  {
    if !Present(sessionParam) then Refuse(SessionNotInformed)
    else
      var session := sessionParam.value;
      SplitPiecesFree(session, ':');
      SplitFirstIsPrefix(session, ':');
      if IsBearer(authorization) then
        match Segment(authorization.value, ' ', 1)
        case Some(t) =>
          if t != "" then Check(Split(session, ':')[0], RestoreHash(t)) else Refuse(TokenNotPresent)
        case None => Refuse(TokenNotPresent)
      else if ':' in session then
        Check(Split(session, ':')[0], RestoreHash(Split(session, ':')[1]))
      else Refuse(TokenNotPresent)
  }

  /**
   * The whole middleware: `next` is reached exactly when bcrypt's `compare`
   * accepts `name + secret` against the decoded hash, and then the request
   * carries that name, that hash and the registry's record for the name.
   */
  function Verify(sessionParam: Option<string>, authorization: Option<string>, secret: string,
                  compare: (string, string) -> bool, clients: map<string, Client>): (r: AuthResult)
    ensures r.Authorized? <==>
              SelectCredentials(sessionParam, authorization).Check? &&
              compare(SelectCredentials(sessionParam, authorization).name + secret,
                      SelectCredentials(sessionParam, authorization).hash)
    ensures r.Authorized? ==>
              r.session == SelectCredentials(sessionParam, authorization).name &&
              r.token == SelectCredentials(sessionParam, authorization).hash &&
              r.client == Lookup(clients, r.session)
    ensures r.Unauthorized? && SelectCredentials(sessionParam, authorization).Check? ==> r.failure == TokenMismatch
  {
    match SelectCredentials(sessionParam, authorization)
    case Refuse(f) => Unauthorized(f)
    case Check(name, hash) =>
      if compare(name + secret, hash) then Authorized(name, hash, Lookup(clients, name))
      else Unauthorized(TokenMismatch)
  }

  /** The fields `verifyToken` sets on the Express request on success. */
  class Request {
    var session: Option<string>
    var token: Option<string>
    var client: Option<Client>

    constructor()
      ensures session.None? && token.None? && client.None?
    {
      session, token, client := None, None, None;
    }
  }

  /**
   * `verifyToken` with its effect on the request: on success it assigns
   * `req.session`, `req.token` and `req.client` and calls `next`; on failure
   * the request is left alone and a 401 is sent.
   */
  method VerifyToken(req: Request, sessionParam: Option<string>, authorization: Option<string>,
                     secret: string, compare: (string, string) -> bool, registry: Registry)
    returns (nextCalled: bool, failure: Option<AuthFailure>)
    modifies req
    ensures var r := Verify(sessionParam, authorization, secret, compare, registry.clients);
            && (nextCalled <==> r.Authorized?)
            && (r.Authorized? ==> failure.None? && req.session == Some(r.session) &&
                                  req.token == Some(r.token) && req.client == r.client)
            && (r.Unauthorized? ==> failure == Some(r.failure) && unchanged(req))
  {
    match SelectCredentials(sessionParam, authorization)
    case Refuse(f) =>
      return false, Some(f);
    case Check(name, hash) =>
      if compare(name + secret, hash) {
        req.session := Some(name);
        req.token := Some(hash);
        req.client := registry.GetClient(name);
        return true, None;
      } else {
        return false, Some(TokenMismatch);
      }
  }

  // ---- lemmas ----

  /** Restoring inverts the substitution on any hash holding neither `_` nor `-`. */
  lemma RestoreInvertsTransportSafe(hash: string)
    requires '_' !in hash && '-' !in hash
    ensures RestoreHash(TransportSafe(hash)) == hash
  {
    var r := RestoreHash(TransportSafe(hash));
    assert |r| == |hash|;
    forall i | 0 <= i < |hash| ensures r[i] == hash[i] { }
  }

  /** Without a `session` parameter the answer is 401 "Session not informed" and nothing is compared. */
  lemma MissingSessionRefused(sessionParam: Option<string>, authorization: Option<string>, secret: string,
                              compare: (string, string) -> bool, clients: map<string, Client>)
    requires !Present(sessionParam)
    ensures Verify(sessionParam, authorization, secret, compare, clients) == Unauthorized(SessionNotInformed)
  {
  }

  /** The Bearer token is read from the header, never from the session parameter: two parameters with the same name part agree. */
  lemma BearerPriority(p1: string, p2: string, authorization: Option<string>, secret: string,
                       compare: (string, string) -> bool, clients: map<string, Client>)
    requires p1 != "" && p2 != "" && Split(p1, ':')[0] == Split(p2, ':')[0]
    requires IsBearer(authorization)
    ensures Verify(Some(p1), authorization, secret, compare, clients) ==
            Verify(Some(p2), authorization, secret, compare, clients)
  {
  }

  /** A header `Bearer ` followed by a word without spaces presents that word. */
  lemma BearerSegment(t: string)
    requires ' ' !in t
    ensures Segment("Bearer " + t, ' ', 1) == Some(t)
  {
    assert "Bearer " + t == "Bearer" + [' '] + t;
    SplitAt("Bearer", ' ', t);
    SplitWithout(t, ' ');
  }

  /**
   * Round trip with token issuing, Bearer form: a header carrying the
   * transport-safe form of a hash that `compare` accepts for
   * `session + secret` authenticates the session.
   */
  lemma BearerRoundTrip(session: string, secret: string, hash: string,
                        compare: (string, string) -> bool, clients: map<string, Client>)
    requires session != "" && ':' !in session
    requires hash != "" && ' ' !in hash && '_' !in hash && '-' !in hash
    requires compare(session + secret, hash)
    ensures Verify(Some(session), Some("Bearer " + TransportSafe(hash)), secret, compare, clients) ==
            Authorized(session, hash, Lookup(clients, session))
  {
    var t := TransportSafe(hash);
    assert ' ' !in t by {
      forall i | 0 <= i < |t| ensures t[i] != ' ' { assert hash[i] != ' '; }
    }
    BearerSegment(t);
    StartsWithAppend("Bearer " + t, "Bearer ", t);
    SplitWithout(session, ':');
    RestoreInvertsTransportSafe(hash);
  }

  /**
   * Round trip with token issuing, legacy form: the composite `session:token`
   * issued for a hash that `compare` accepts authenticates the session when
   * no Bearer header is sent.
   */
  lemma LegacyRoundTrip(session: string, secret: string, hash: string, authorization: Option<string>,
                        compare: (string, string) -> bool, clients: map<string, Client>)
    requires ':' !in session && ':' !in hash && '_' !in hash && '-' !in hash
    requires !IsBearer(authorization)
    requires compare(session + secret, hash)
    ensures Verify(Some(FullToken(session, TransportSafe(hash))), authorization, secret, compare, clients) ==
            Authorized(session, hash, Lookup(clients, session))
  {
    var t := TransportSafe(hash);
    assert ':' !in t by {
      forall i | 0 <= i < |t| ensures t[i] != ':' { assert hash[i] != ':'; }
    }
    FullTokenSplits(session, t);
    assert FullToken(session, t)[|session|] == ':';
    RestoreInvertsTransportSafe(hash);
  }

  /**
   * A token belongs to one session: when `compare` accepts the hash only for
   * the text it was made from, any request presenting that hash, as a Bearer
   * token or in the legacy `name:token` parameter, can authorise that session
   * and no other name; any other name is refused with 401.
   */
  lemma ForeignTokenRefused(session: string, secret: string, hash: string,
                            sessionParam: Option<string>, authorization: Option<string>,
                            compare: (string, string) -> bool, clients: map<string, Client>)
    requires forall m :: compare(m, hash) ==> m == session + secret
    requires SelectCredentials(sessionParam, authorization).Check?
    requires SelectCredentials(sessionParam, authorization).hash == hash
    ensures Verify(sessionParam, authorization, secret, compare, clients).Authorized? ==>
              Verify(sessionParam, authorization, secret, compare, clients).session == session
    ensures SelectCredentials(sessionParam, authorization).name != session ==>
              Verify(sessionParam, authorization, secret, compare, clients) == Unauthorized(TokenMismatch)
  {
    var name := SelectCredentials(sessionParam, authorization).name;
    if compare(name + secret, hash) {
      assert name + secret == session + secret;
      assert name == (name + secret)[..|name|];
      assert session == (session + secret)[..|session|];
    }
  }

  /** The Bearer form of a foreign token: whatever follows the `:` of the session parameter, a different name is refused. */
  lemma ForeignBearerRefused(session: string, secret: string, hash: string, other: string,
                             compare: (string, string) -> bool, clients: map<string, Client>)
    requires other != "" && Split(other, ':')[0] != session
    requires hash != "" && ' ' !in hash && '_' !in hash && '-' !in hash
    requires forall m :: compare(m, hash) ==> m == session + secret
    ensures Verify(Some(other), Some("Bearer " + TransportSafe(hash)), secret, compare, clients) == Unauthorized(TokenMismatch)
  {
    var t := TransportSafe(hash);
    assert ' ' !in t by {
      forall i | 0 <= i < |t| ensures t[i] != ' ' { assert hash[i] != ' '; }
    }
    BearerSegment(t);
    StartsWithAppend("Bearer " + t, "Bearer ", t);
    RestoreInvertsTransportSafe(hash);
    ForeignTokenRefused(session, secret, hash, Some(other), Some("Bearer " + t), compare, clients);
  }

  /** The legacy form of a foreign token: `other:token` for a different name is refused. */
  lemma ForeignLegacyRefused(session: string, secret: string, hash: string, other: string, authorization: Option<string>,
                             compare: (string, string) -> bool, clients: map<string, Client>)
    requires ':' !in other && other != session && ':' !in hash && '_' !in hash && '-' !in hash
    requires !IsBearer(authorization)
    requires forall m :: compare(m, hash) ==> m == session + secret
    ensures Verify(Some(FullToken(other, TransportSafe(hash))), authorization, secret, compare, clients) == Unauthorized(TokenMismatch)
  {
    var t := TransportSafe(hash);
    assert ':' !in t by {
      forall i | 0 <= i < |t| ensures t[i] != ':' { assert hash[i] != ':'; }
    }
    FullTokenSplits(other, t);
    assert FullToken(other, t)[|other|] == ':';
    RestoreInvertsTransportSafe(hash);
    ForeignTokenRefused(session, secret, hash, Some(FullToken(other, t)), authorization, compare, clients);
  }
}
