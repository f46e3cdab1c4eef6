/**
 * Token issuing (src/controller/encryptController.ts). Five handlers check a
 * secret against the configured one and, when it matches, ask bcrypt for a
 * salted hash of `session + secret`; the hash is made transport-safe and also
 * offered in the composite form `session:token`.
 *
 * Each handler runs in two phases, as the source does around bcrypt's
 * callback: `Start` either answers at once or names the text to be hashed;
 * `Finish` turns the hashing outcome into the answer. bcrypt itself is not
 * modelled: its outcome is an input of `Finish`.
 */
module EncryptController {
  import opened Wrappers
  import opened Text

  const SECRET_INCORRECT := "The SECRET_KEY is incorrect"

  /** The five token generators of the controller. */
  datatype Generator =
    | EncryptSession
    | GenerateAndApplyToken
    | ApplyTokenAndRedirect
    | ApplyTokenAuto
    | TestWebhookWithToken

  /** What bcrypt's `hash` callback receives: an error, or the hash. */
  datatype HashOutcome = HashFailed | Hashed(hash: string)

  datatype TokenReply =
    | BadSecret                          // 400 { response: false, message: SECRET_INCORRECT }
    | HashError                          // 500 with bcrypt's error
    | Crashed                            // the handler throws before answering
    | Issued(code: nat, session: string, token: string, full: Option<string>)

  datatype Start = Answer(reply: TokenReply) | HashInput(input: string)

  /**
   * The value `encryptSession` compares with the configured secret: the
   * `secretkey` path parameter when present, else the first space-separated
   * piece of the Authorization header. None when there is neither, where
   * `(token as string).split(' ')` throws on `undefined`.
   */
  function ComparedSecret(secretkey: Option<string>, authorization: Option<string>): (r: Option<string>)
    ensures secretkey.Some? ==> r == secretkey
    ensures secretkey.None? && authorization.Some? ==>
              r.Some? && ' ' !in r.value && StartsWith(authorization.value, r.value)
    ensures secretkey.None? && authorization.Some? ==>
              r.Some? && (|r.value| == |authorization.value| || authorization.value[|r.value|] == ' ')
    ensures secretkey.None? && authorization.None? ==> r.None?
  {
    match secretkey
    case Some(k) => Some(k)
    case None =>
      match authorization
      case None => None
      case Some(h) =>
        SplitPiecesFree(h, ' ');
        SplitFirstIsPrefix(h, ' ');
        SplitFirstMaximal(h, ' ');
        Some(Split(h, ' ')[0])
  }

  /** The secret a generator compares: `encryptSession` falls back to the header, the others check `secretkey` alone. */
  function PresentedSecret(g: Generator, secretkey: Option<string>, authorization: Option<string>): Option<string> {
    if g == EncryptSession then ComparedSecret(secretkey, authorization) else secretkey
  }

  /**
   * First phase of a generator: a wrong secret gets 400 and no hash is ever
   * requested; a right one asks for the hash of exactly `session + secret`.
   */
  function StartGenerator(g: Generator, session: string, secretkey: Option<string>,
                          authorization: Option<string>, secret: string): (r: Start)
    ensures r.HashInput? <==> PresentedSecret(g, secretkey, authorization) == Some(secret)
    ensures r.HashInput? ==> r.input == session + secret
    ensures r.Answer? ==> r.reply == (if g == EncryptSession && secretkey.None? && authorization.None?
                                      then Crashed else BadSecret)
  {
    if g == EncryptSession && secretkey.None? && authorization.None? then Answer(Crashed)
    else
      var presented := PresentedSecret(g, secretkey, authorization);
      if presented != Some(secret) then Answer(BadSecret) else HashInput(session + secret)
  }

  /** `hash.replace(/\//g, '_').replace(/\+/g, '-')`. */
  function TransportSafe(hash: string): (t: string)
    ensures |t| == |hash|
    ensures '/' !in t && '+' !in t
    ensures forall i :: 0 <= i < |hash| && hash[i] != '/' && hash[i] != '+' ==> t[i] == hash[i]
    ensures forall i :: 0 <= i < |hash| && hash[i] == '/' ==> t[i] == '_'
    ensures forall i :: 0 <= i < |hash| && hash[i] == '+' ==> t[i] == '-'
  {
    ReplaceChar(ReplaceChar(hash, '/', '_'), '+', '-')
  }

  /** The composite form `${session}:${token}`. */
  function FullToken(session: string, token: string): string {
    session + ":" + token
  }

  /** The status code of a successful answer: 201 for `encryptSession`, 200 for the others. */
  function SuccessCode(g: Generator): nat {
    if g == EncryptSession then 201 else 200
  }

  /** Only the two JSON generators answer with the composite form; the HTML pages and the webhook test carry the token alone. */
  predicate OffersFullToken(g: Generator) {
    g == EncryptSession || g == GenerateAndApplyToken
  }

  /** Second phase: a hashing error is a 500, never an authentication failure. */
  function FinishGenerator(g: Generator, session: string, hashed: HashOutcome): (r: TokenReply)
    ensures hashed.HashFailed? <==> r == HashError
    ensures hashed.Hashed? ==> r.Issued? && r.session == session && r.token == TransportSafe(hashed.hash)
    ensures r.Issued? ==> (r.full.Some? <==> OffersFullToken(g))
    ensures r.Issued? && r.full.Some? ==> r.full.value == FullToken(session, r.token)
  {
    match hashed
    case HashFailed => HashError
    case Hashed(h) =>
      var token := TransportSafe(h);
      Issued(SuccessCode(g), session, token, if OffersFullToken(g) then Some(FullToken(session, token)) else None)
  }

  /** A whole generator call, bcrypt's outcome given. */
  function Generate(g: Generator, session: string, secretkey: Option<string>,
                    authorization: Option<string>, secret: string,
                    hash: string -> HashOutcome): TokenReply {
    match StartGenerator(g, session, secretkey, authorization, secret)
    case Answer(reply) => reply
    case HashInput(input) => FinishGenerator(g, session, hash(input))
  }

  // ---- lemmas ----

  lemma {:induction false} SplitFirstIsPrefix(s: string, c: char)
    ensures StartsWith(s, Split(s, c)[0])
    decreases |s|
  {
    if |s| > 0 && s[0] != c {
      SplitFirstIsPrefix(s[1..], c);
      var rest := Split(s[1..], c);
      assert s[..|rest[0]| + 1] == [s[0]] + s[1..][..|rest[0]|];
    }
  }

  /** A wrong secret is answered with 400 and the hash is never computed. */
  lemma BadSecretNeverHashes(g: Generator, session: string, secretkey: Option<string>,
                             authorization: Option<string>, secret: string,
                             hash: string -> HashOutcome)
    requires secretkey.Some? && secretkey.value != secret
    ensures StartGenerator(g, session, secretkey, authorization, secret) == Answer(BadSecret)
    ensures Generate(g, session, secretkey, authorization, secret, hash) == BadSecret
  {
  }

  /**
   * The four sibling generators look at the `secretkey` parameter only: the
   * Authorization header never changes their decision, and without the
   * parameter they answer 400.
   */
  lemma SiblingsIgnoreHeader(g: Generator, session: string, secretkey: Option<string>,
                             a1: Option<string>, a2: Option<string>, secret: string)
    requires g != EncryptSession
    ensures StartGenerator(g, session, secretkey, a1, secret) == StartGenerator(g, session, secretkey, a2, secret)
    ensures secretkey.None? ==> StartGenerator(g, session, secretkey, a1, secret) == Answer(BadSecret)
  {
  }

  /**
   * With a `secretkey` parameter present every generator, `encryptSession`
   * included, takes the same decision and issues the same token.
   */
  lemma SiblingsAgree(g: Generator, session: string, secretkey: Option<string>,
                      a1: Option<string>, a2: Option<string>, secret: string,
                      hash: string -> HashOutcome)
    requires secretkey.Some?
    ensures StartGenerator(g, session, secretkey, a1, secret) == StartGenerator(EncryptSession, session, secretkey, a2, secret)
    ensures Generate(g, session, secretkey, a1, secret, hash).Issued? ==>
              Generate(g, session, secretkey, a1, secret, hash).token ==
              Generate(EncryptSession, session, secretkey, a2, secret, hash).token
  {
  }

  /**
   * `encryptSession` with no `secretkey` goes on to hash exactly when the
   * header's first space-separated word is the secret: the header is the
   * secret, or the secret followed by a space and anything.
   */
  lemma HeaderSecretAccepted(session: string, secret: string, header: string)
    requires ' ' !in secret
    ensures StartGenerator(EncryptSession, session, None, Some(header), secret).HashInput? <==>
              header == secret || StartsWith(header, secret + " ")
  {
    var p := Split(header, ' ')[0];
    SplitFirstIsPrefix(header, ' ');
    SplitFirstMaximal(header, ' ');
    assert ComparedSecret(None, Some(header)) == Some(p);
    if p == secret {
      if |p| < |header| {
        assert header[..|p| + 1] == secret + " ";
      }
    }
    if header == secret {
      SplitWithout(header, ' ');
    }
    if StartsWith(header, secret + " ") {
      var rest := header[|secret| + 1..];
      assert header == secret + [' '] + rest;
      SplitAt(secret, ' ', rest);
    }
  }

  /** The produced token is transport-safe whatever bcrypt returned. */
  lemma IssuedTokenIsSafe(g: Generator, session: string, secretkey: Option<string>,
                          authorization: Option<string>, secret: string, hash: string -> HashOutcome)
    ensures var r := Generate(g, session, secretkey, authorization, secret, hash);
            r.Issued? ==> '/' !in r.token && '+' !in r.token && r.session == session
  {
  }

  /** For a session without `:` and a token without `:`, splitting the composite form on `:` gives them back. */
  lemma FullTokenSplits(session: string, token: string)
    requires ':' !in session && ':' !in token
    ensures Split(FullToken(session, token), ':') == [session, token]
    ensures Segment(FullToken(session, token), ':', 0) == Some(session)
    ensures Segment(FullToken(session, token), ':', 1) == Some(token)
  {
    assert FullToken(session, token) == session + [':'] + token;
    SplitAt(session, ':', token);
    SplitWithout(token, ':');
  }
}
