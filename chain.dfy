/**
 * The HTTP request validation pipeline (behavioral/chain-of-responsibility.ts).
 *
 * Each handler object runs its own check; when the check passes it hands the
 * request to the handler linked by `setNext`, and the end of the chain answers
 * `null`. The checks themselves are the function `Check`, and what a chain
 * answers is the function `HandleChain` over the kinds of its handlers in
 * order. The handler objects and their `nextHandler` links are the class
 * `Handler`, whose `Handle` is proved to agree with `HandleChain`.
 */
module ChainOfResponsibility {

  import opened Wrappers

  datatype User = User(isAuthenticated: bool, role: string, requestsToday: int)

  /** A request; its `user` may be missing. */
  datatype Request = Request(user: Option<User>)

  /**
   * What `handle` answers: `null` when every check passed, a
   * `{statusCode, message}` object when one failed, or the `TypeError` a check
   * raises by reading a property of a missing `user`.
   */
  datatype Response = Passed | Rejected(statusCode: int, message: string) | TypeError

  datatype Kind = Auth | Role | RateLimit

  /** The outcome of one handler's own check: pass the request on, or answer it. */
  datatype Verdict = Pass | Answer(response: Response)

  const RateLimitPerDay: int := 1000

  /**
   * The check of AuthHandler, RoleHandler or RateLimitHandler. A check that
   * answers never answers `null`, and no check passes a request without a user.
   */
  function Check(k: Kind, req: Request): (v: Verdict)
    ensures v.Answer? ==> !v.response.Passed?
    ensures req.user.None? ==> v == Answer(if k == Auth then Rejected(429, "Authentication failed") else TypeError)
  {
    match k
    case Auth =>
      if req.user.None? || !req.user.value.isAuthenticated then Answer(Rejected(429, "Authentication failed"))
      else Pass
    case Role =>
      if req.user.None? then Answer(TypeError)
      else if req.user.value.role != "admin" then Answer(Rejected(403, "Access denied: Admins only"))
      else Pass
    case RateLimit =>
      if req.user.None? then Answer(TypeError)
      else if req.user.value.requestsToday > RateLimitPerDay then Answer(Rejected(429, "Too many requests, limit reached"))
      else Pass
  }

  /**
   * What a chain of handlers of these kinds, in this order, answers: `null`,
   * or the answer of one of its checks.
   */
  function HandleChain(ks: seq<Kind>, req: Request): (r: Response)
    ensures r.Passed? || exists i :: 0 <= i < |ks| && Check(ks[i], req) == Answer(r)
    ensures ks != [] && req.user.None? ==> !r.Passed?
    decreases |ks|
  {
    if ks == [] then Passed
    else match Check(ks[0], req)
      case Answer(r) => r
      case Pass =>
        assert forall i :: 0 <= i < |ks| - 1 ==> ks[1..][i] == ks[i + 1];
        HandleChain(ks[1..], req)
  }

  /** The authentication check fails, with status 429, exactly when the user is missing or not authenticated. */
  lemma AuthCheck(req: Request)
    ensures Check(Auth, req) == (if req.user.None? || !req.user.value.isAuthenticated
                                 then Answer(Rejected(429, "Authentication failed")) else Pass)
    ensures Check(Auth, req).Answer? ==> Check(Auth, req).response.statusCode == 429
  {
  }

  /** For a present user the role check fails, with status 403, exactly when the role is not "admin". */
  lemma RoleCheck(u: User)
    ensures Check(Role, Request(Some(u))).Pass? <==> u.role == "admin"
    ensures u.role != "admin" ==> Check(Role, Request(Some(u))) == Answer(Rejected(403, "Access denied: Admins only"))
  {
  }

  /** For a present user the rate limit rejects only above 1000 requests: exactly 1000 passes. */
  lemma RateLimitCheck(u: User)
    ensures Check(RateLimit, Request(Some(u))).Pass? <==> u.requestsToday <= 1000
    ensures Check(RateLimit, Request(Some(u.(requestsToday := 1000)))).Pass?
    ensures Check(RateLimit, Request(Some(u.(requestsToday := 1001)))) == Answer(Rejected(429, "Too many requests, limit reached"))
  {
  }

  /**
   * The first handler whose check answers decides the response; the handlers
   * after it are not consulted, so replacing them by any `later` ones changes nothing.
   */
  lemma {:induction false} FirstAnswerWins(ks: seq<Kind>, later: seq<Kind>, req: Request, i: nat)
    requires i < |ks|
    requires forall j :: 0 <= j < i ==> Check(ks[j], req).Pass?
    requires Check(ks[i], req).Answer?
    ensures HandleChain(ks, req) == Check(ks[i], req).response
    ensures HandleChain(ks[..i + 1] + later, req) == Check(ks[i], req).response
    decreases i
  {
    var longer := ks[..i + 1] + later;
    assert longer[0] == ks[0];
    if i > 0 {
      assert Check(ks[0], req).Pass?;
      assert longer[1..] == ks[1..][..i] + later;
      FirstAnswerWins(ks[1..], later, req, i - 1);
    }
  }

  /** A chain answers `null` exactly when every one of its checks passes. */
  lemma {:induction false} PassedIffAllPass(ks: seq<Kind>, req: Request)
    ensures HandleChain(ks, req) == Passed <==> forall j :: 0 <= j < |ks| ==> Check(ks[j], req).Pass?
    decreases |ks|
  {
    if ks != [] {
      PassedIffAllPass(ks[1..], req);
      if Check(ks[0], req).Pass? {
        assert forall j :: 1 <= j < |ks| ==> ks[j] == ks[1..][j - 1];
      }
    }
  }

  class Handler {
    const kind: Kind
    var next: Handler?

    /** A new handler, not linked to any other (`nextHandler = null`). */
    constructor (kind: Kind)
      ensures this.kind == kind && next == null
    {
      this.kind := kind;
      next := null;
    }

    /** `setNext`: link `h` after this handler and return it, so calls chain. */
    method SetNext(h: Handler) returns (r: Handler)
      modifies this
      ensures next == h && r == h
    {
      next := h;
      r := next;
    }

    /** `handle`: this handler's check, then, on a pass, the rest of the chain or `null` at its end. */
    method Handle(req: Request, ghost ks: seq<Kind>) returns (r: Response)
      requires ChainOf(this, ks)
      ensures r == HandleChain(ks, req)
      decreases |ks|
    {
      var verdict := Check(kind, req);
      if verdict.Answer? {
        r := verdict.response;
      } else if next != null {
        r := next.Handle(req, ks[1..]);
      } else {
        r := Passed;
      }
    }
  }

  /** Following `next` links from `h` visits handlers of the kinds `ks`, in order, and then reaches `null`. */
  ghost predicate ChainOf(h: Handler?, ks: seq<Kind>)
    reads *
    decreases |ks|
  {
    if ks == [] then h == null
    else h != null && h.kind == ks[0] && ChainOf(h.next, ks[1..])
  }

  /**
   * The script at the end of the source file: an authenticated admin with 500
   * requests passes every check. The request without a user is not in the
   * script; it is added here to show that the first handler answers it before
   * the later ones could fail on the missing user.
   */
  method Demo() returns (result: Response, anonymous: Response)
    ensures result == Passed
    ensures anonymous == Rejected(429, "Authentication failed")
  {
    var auth := new Handler(Auth);
    var role := new Handler(Role);
    var rate := new Handler(RateLimit);
    var linked := auth.SetNext(role);
    linked := linked.SetNext(rate);
    assert ChainOf(rate, [RateLimit]);
    assert ChainOf(role, [Role, RateLimit]);
    assert ChainOf(auth, [Auth, Role, RateLimit]);
    result := auth.Handle(Request(Some(User(true, "admin", 500))), [Auth, Role, RateLimit]);
    anonymous := auth.Handle(Request(None), [Auth, Role, RateLimit]);
  }
}
