/**
 * The request-pipeline helpers of utils/middleware.js: the error
 * classifier, the catch-all 404 answer, and the two extractors that read
 * the `Authorization` header.
 */
module Middleware {

  import opened Wrappers
  import opened JsStrings

  /** An error as the classifier sees it: its `name` and its `message`. */
  datatype Error = Error(name: string, message: string)

  /**
   * What a middleware does with a request: answer it with a status and an
   * `{error: …}` body, hand an error on with `next(error)`, or pass control
   * on with `next()`.
   */
  datatype Outcome =
    | Respond(status: int, body: string)
    | Forward(error: Error)
    | Next

  // ------------------------------------------------------- errorHandler

  /** The failure kinds the classifier tells apart. */
  datatype Kind = MalformedId | ValidationFailure | InvalidToken | ExpiredToken | Unhandled

  /** Reference: which kind an error name denotes (names are compared exactly). */
  function KindOf(name: string): Kind
  {
    match name
    case "CastError" => MalformedId
    case "ValidationError" => ValidationFailure
    case "JsonWebTokenError" => InvalidToken
    case "TokenExpiredError" => ExpiredToken
    case _ => Unhandled
  }

  /** Reference: the status each handled kind is answered with. */
  function StatusOf(k: Kind): int
    requires k != Unhandled
  {
    match k
    case MalformedId => 400
    case ValidationFailure => 400
    case InvalidToken => 401
    case ExpiredToken => 401
  }

  /** Reference: whether the body passes the error's own message through. */
  predicate EchoesMessage(k: Kind)
  {
    k == ValidationFailure || k == InvalidToken
  }

  /** `errorHandler`: answer the four known error names, forward the rest. */
  function ErrorHandler(e: Error): (r: Outcome)
    ensures !r.Next?
    ensures r.Forward? <==> KindOf(e.name) == Unhandled
    ensures r.Forward? ==> r.error == e
    ensures r.Respond? ==> r.status == StatusOf(KindOf(e.name))
    ensures r.Respond? && EchoesMessage(KindOf(e.name)) ==> r.body == e.message
    ensures KindOf(e.name) == MalformedId ==> r == Respond(400, "malformatted id")
    ensures KindOf(e.name) == ExpiredToken ==> r == Respond(401, "token expired")
  {
    if e.name == "CastError" then Respond(400, "malformatted id")
    else if e.name == "ValidationError" then Respond(400, e.message)
    else if e.name == "JsonWebTokenError" then Respond(401, e.message)
    else if e.name == "TokenExpiredError" then Respond(401, "token expired")
    else Forward(e)
  }

  /** Entity errors are client errors (400), token errors are authentication errors (401). */
  lemma ErrorHandlerStatusClasses(e: Error)
    ensures (ErrorHandler(e).Respond? && ErrorHandler(e).status == 400) <==> e.name in {"CastError", "ValidationError"}
    ensures (ErrorHandler(e).Respond? && ErrorHandler(e).status == 401) <==> e.name in {"JsonWebTokenError", "TokenExpiredError"}
  {
  }

  /** The fixed bodies do not depend on the message; the echoed ones are the message itself. */
  lemma ErrorHandlerMessageDependence(name: string, m1: string, m2: string)
    ensures KindOf(name) in {MalformedId, ExpiredToken} ==> ErrorHandler(Error(name, m1)) == ErrorHandler(Error(name, m2))
    ensures EchoesMessage(KindOf(name)) && m1 != m2 ==> ErrorHandler(Error(name, m1)) != ErrorHandler(Error(name, m2))
  {
  }

  /** Names are compared exactly: another spelling is not recognised and is forwarded. */
  lemma ErrorNamesAreCaseSensitive(m: string)
    ensures ErrorHandler(Error("casterror", m)) == Forward(Error("casterror", m))
    ensures ErrorHandler(Error("TokenExpired", m)) == Forward(Error("TokenExpired", m))
  {
  }

  // ---------------------------------------------------- unknownEndpoint

  const UnknownEndpointBody: string := "unknown endpoint"

  // ---------------------------------------------- Authorization header

  /** The literal, case-sensitive scheme prefix both extractors look for. */
  const BearerPrefix: string := "Bearer "

  /** How a client builds the header from a token (tests/test_helper.js:40). */
  function BearerHeader(token: string): string
  {
    BearerPrefix + token
  }

  /** JavaScript truthiness of the header value: absent and "" are falsy. */
  predicate Truthy(h: Option<string>)
  {
    h.Some? && h.value != ""
  }

  /** The gate and the strip both extractors run, written as the source does:
      truthiness, `startsWith`, then `replace` of the first occurrence. It
      yields exactly the reference token. */
  function Candidate(authorization: Option<string>): (r: Option<string>)
    ensures r == TokenOf(authorization)
  {
    if Truthy(authorization) && StartsWith(authorization.value, BearerPrefix)
    then
      ReplacePrefixDropsIt(authorization.value, BearerPrefix);
      Some(ReplaceFirst(authorization.value, BearerPrefix, ""))
    else None
  }

  /** Reference: the token carried by a header, by slicing off the prefix. */
  function TokenOf(authorization: Option<string>): Option<string>
  {
    if authorization.Some? && StartsWith(authorization.value, BearerPrefix)
    then Some(authorization.value[|BearerPrefix|..])
    else None
  }

  /** A header is read exactly when it carries the prefix. */
  lemma CandidateExistsIff(authorization: Option<string>)
    ensures Candidate(authorization).Some? <==>
            authorization.Some? && StartsWith(authorization.value, BearerPrefix)
  {
  }

  /** Round trip: the header built from a token gives back that token. */
  lemma BearerRoundTrip(token: string)
    ensures Candidate(Some(BearerHeader(token))) == Some(token)
  {
    assert BearerHeader(token)[..|BearerPrefix|] == BearerPrefix;
    assert BearerHeader(token)[|BearerPrefix|..] == token;
  }

  /** Round trip the other way: an accepted header is the prefix plus its token. */
  lemma HeaderRoundTrip(header: string)
    requires Candidate(Some(header)).Some?
    ensures BearerHeader(Candidate(Some(header)).value) == header
  {
  }

  /** Headers the gate turns away: another scheme, lower case, a missing space, none at all. */
  lemma RejectedHeaders()
    ensures Candidate(None) == None
    ensures Candidate(Some("")) == None
    ensures Candidate(Some("bearer abc")) == None
    ensures Candidate(Some("Bearer")) == None
    ensures Candidate(Some("Basic abc")) == None
  {
    assert "bearer abc"[..7] != BearerPrefix by { assert "bearer abc"[0] != BearerPrefix[0]; }
    assert "Basic abc"[..7] != BearerPrefix by { assert "Basic abc"[1] != BearerPrefix[1]; }
  }

  /** Only the prefix goes: a token that itself contains "Bearer " keeps it. */
  lemma OnlyFirstOccurrenceStripped(token: string)
    ensures Candidate(Some(BearerHeader(BearerHeader(token)))) == Some(BearerHeader(token))
  {
    BearerRoundTrip(BearerHeader(token));
  }

  /** Identifies a user record; what `User.findById` resolves a token to. */
  type UserId = string

  /** The request object the middleware reads and decorates. */
  class Request {
    /** `req.get('authorization')`: `None` when the header is absent. */
    var authorization: Option<string>
    /** `req.token`: `None` until an extractor sets it. */
    var token: Option<string>
    /** `req.user`: `None` while unset or when no user was found. */
    var user: Option<UserId>

    constructor (authorization: Option<string>)
      ensures this.authorization == authorization && token == None && user == None
    {
      this.authorization := authorization;
      token := None;
      user := None;
    }

    /**
     * `tokenExtractor`: a `Bearer ` header sets `req.token` to the rest of
     * the header; any other header leaves it alone. It never answers and
     * never fails: it always passes control on with `next()`.
     */
    method TokenExtractor() returns (o: Outcome)
      modifies this`token
      ensures o == Next
      ensures TokenOf(authorization).Some? ==> token == TokenOf(authorization)
      ensures TokenOf(authorization).None? ==> token == old(token)
      ensures authorization == old(authorization) && user == old(user)
    {
      var candidate := Candidate(authorization);
      if candidate.Some? {
        token := candidate;
      }
      o := Next;
    }

    /**
     * The header gate of `userExtractor`. Token verification and the user
     * lookup are the parameter `resolve`; `verified` is the string handed
     * to it, if any. The gate and the string are the ones `TokenExtractor`
     * uses, and only `req.user` changes.
     */
    method UserExtractor(resolve: string -> Option<UserId>) returns (verified: Option<string>, o: Outcome)
      modifies this`user
      ensures o == Next
      ensures verified == TokenOf(authorization)
      ensures verified.Some? ==> user == resolve(verified.value)
      ensures verified.None? ==> user == old(user)
      ensures authorization == old(authorization) && token == old(token)
    {
      verified := Candidate(authorization);
      if verified.Some? {
        user := resolve(verified.value);
      }
      o := Next;
    }
  }

  /** `unknownEndpoint`: every request that reaches it is answered 404. */
  function UnknownEndpoint(req: Request): (r: Outcome)
    ensures r.Respond? && r.status == 404 && r.body == UnknownEndpointBody
  {
    Respond(404, UnknownEndpointBody)
  }
}
