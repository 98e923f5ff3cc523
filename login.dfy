/**
 * One login attempt against the secrets server (vault_ec2_auth and get_nonce):
 * the nonce-file rule, the choice between the login and re-login request, the
 * status test, and what the attempt hands back to its caller.
 */
module Login {
  import opened Wrappers
  import opened Clock

  /** The settings the process reads once at start-up and never changes. */
  datatype Config = Config(
    vaultUrl: string,    // the server's base URL, as formatted by `%s`
    awsMount: string,    // the auth backend's mount path
    role: string,        // the role to log in as
    agent: bool,         // loop forever instead of exiting after one login
    retryDelay: Int64)   // seconds between retries

  /** A file on disk: absent (Stat fails), or present with contents that ReadFile may fail to return. */
  datatype File = Absent | Present(contents: string, readable: bool)

  /**
   * get_nonce: a nonce is present exactly when the nonce file exists and is not
   * empty; its value is the file's contents, or "" when reading them fails
   * (that error is ignored).
   */
  function GetNonce(f: File): (n: Option<string>)
    ensures n.Some? <==> f.Present? && |f.contents| > 0
    ensures n.Some? && f.readable ==> n.value == f.contents
    ensures n.Some? && !f.readable ==> n.value == ""
  {
    match f
    case Absent => None
    case Present(contents, readable) =>
      if |contents| > 0 then Some(if readable then contents else "") else None
  }

  /** ioutil.WriteFile succeeding: the contents are replaced; a file it creates is readable by its owner. */
  function Written(f: File, contents: string): (g: File)
    ensures g.Present? && g.contents == contents
    ensures g.readable == (f.Absent? || f.readable)
  {
    Present(contents, f.Absent? || f.readable)
  }

  /** LoginRequest when `nonce` is None, ReLoginRequest when it is Some. */
  datatype LoginRequest = LoginRequest(role: string, pkcs7: string, nonce: Option<string>)

  /** The key/value pairs of the JSON object a request marshals to, in field order. */
  function Fields(r: LoginRequest): (kv: seq<(string, string)>)
    ensures |kv| == if r.nonce.Some? then 3 else 2
    ensures kv[0] == ("role", r.role) && kv[1] == ("pkcs7", r.pkcs7)
    ensures r.nonce.Some? ==> kv[2] == ("nonce", r.nonce.value)
  {
    [("role", r.role), ("pkcs7", r.pkcs7)] + match r.nonce
      case None => []
      case Some(n) => [("nonce", n)]
  }

  /**
   * The request vault_ec2_auth builds: the configured role, the identity proof
   * verbatim, and a nonce field exactly when the nonce file holds one.
   */
  function BuildRequest(cfg: Config, pkcs7: string, nonceFile: File): (r: LoginRequest)
    ensures r.role == cfg.role && r.pkcs7 == pkcs7
    ensures r.nonce.Some? <==> nonceFile.Present? && |nonceFile.contents| > 0
    ensures r.nonce.Some? && nonceFile.readable ==> r.nonce.value == nonceFile.contents
  {
    LoginRequest(cfg.role, pkcs7, GetNonce(nonceFile))
  }

  /** The login endpoint: `{base}/v1/auth/{mount}/login`. */
  function LoginUrl(cfg: Config): (u: string)
    ensures var n, m := |cfg.vaultUrl|, |cfg.awsMount|;
      && |u| == n + m + 15
      && u[..n] == cfg.vaultUrl && u[n..n + 9] == "/v1/auth/"
      && u[n + 9..n + 9 + m] == cfg.awsMount && u[n + 9 + m..] == "/login"
  {
    cfg.vaultUrl + "/v1/auth/" + cfg.awsMount + "/login"
  }

  /** A POST the agent sent. */
  datatype Post = Post(url: string, request: LoginRequest)

  /** The status test of vault_ec2_auth: a login fails unless the code is 2xx. */
  function IsFailureStatus(code: int): (failed: bool)
    ensures failed <==> !(200 <= code < 300)
  {
    code >= 300 || code < 200
  }

  /** The fields of a login response the agent uses. */
  datatype LoginResponse = LoginResponse(leaseDuration: Int32, clientToken: string, nonce: string)

  /** What the POST produced: a transport error, or a reply whose body may fail to decode. */
  datatype PostReply =
    | TransportFailure
    | Reply(status: int, text: string, json: Option<LoginResponse>)

  /**
   * The outside world's side of one attempt: the identity document (None when
   * the GET fails), the POST's result, and the time from the start of the
   * attempt until its reply is in hand.
   */
  datatype Attempt = Attempt(pkcs7: Option<string>, reply: PostReply, elapsed: nat)

  /** Why the process exits through log.Fatal (or, for the identity fetch, a nil dereference). */
  datatype Cause =
    | IdentityFetchFailed
    | LoginPostFailed
    | ResponseDecodeFailed
    | ServerLookupFailed
    | TokenWriteFailed
    | NonceWriteFailed

  datatype LoginError = LoginError(status: int, body: string)

  /** What vault_ec2_auth returns to its caller, or the fatal exit it takes instead. */
  datatype AuthOutcome =
    | Returned(leaseEnd: Instant, token: string, nonce: string, err: Option<LoginError>)
    | Died(cause: Cause)

  /** The outcome of one attempt, the POSTs it sent, and the clock when it ended. */
  datatype AuthAttempt = AuthAttempt(outcome: AuthOutcome, sent: seq<Post>, clock: Instant)

  /** The server rejected the attempt with a status outside 2xx. */
  predicate Rejects(a: Attempt) {
    a.pkcs7.Some? && a.reply.Reply? && IsFailureStatus(a.reply.status)
  }

  /** The server accepted the attempt and its body decoded. */
  predicate Accepts(a: Attempt) {
    a.pkcs7.Some? && a.reply.Reply? && !IsFailureStatus(a.reply.status) && a.reply.json.Some?
  }

  /**
   * vault_ec2_auth, given the nonce file and what the outside world answers.
   * A 2xx reply yields the lease end, token and nonce of that one response; any
   * other status yields an error with the current time and empty strings; a
   * failed identity fetch, a failed POST or an undecodable body is fatal.
   */
  function Ec2Auth(cfg: Config, nonceFile: File, a: Attempt, now: Instant): (r: AuthAttempt)
    ensures r.clock == now + a.elapsed
    ensures |r.sent| == if a.pkcs7.Some? then 1 else 0
    ensures a.pkcs7.Some? ==> r.sent[0] == Post(LoginUrl(cfg), BuildRequest(cfg, a.pkcs7.value, nonceFile))
    ensures r.outcome.Returned? <==> Accepts(a) || Rejects(a)
    ensures r.outcome.Returned? ==> (r.outcome.err.None? <==> Accepts(a))
    ensures Accepts(a) ==>
      var resp := a.reply.json.value;
      r.outcome == Returned(LeaseEnd(r.clock, resp.leaseDuration), resp.clientToken, resp.nonce, None)
    ensures Rejects(a) ==>
      r.outcome == Returned(r.clock, "", "", Some(LoginError(a.reply.status, a.reply.text)))
    ensures a.pkcs7.None? ==> r.outcome == Died(IdentityFetchFailed)
    ensures a.pkcs7.Some? && a.reply.TransportFailure? ==> r.outcome == Died(LoginPostFailed)
    ensures a.pkcs7.Some? && a.reply.Reply? && 200 <= a.reply.status < 300 && a.reply.json.None? ==>
      r.outcome == Died(ResponseDecodeFailed)
  {
    var t := now + a.elapsed;
    match a.pkcs7
    case None => AuthAttempt(Died(IdentityFetchFailed), [], t)
    case Some(proof) =>
      var post := Post(LoginUrl(cfg), BuildRequest(cfg, proof, nonceFile));
      match a.reply
      case TransportFailure => AuthAttempt(Died(LoginPostFailed), [post], t)
      case Reply(status, text, json) =>
        if IsFailureStatus(status) then
          AuthAttempt(Returned(t, "", "", Some(LoginError(status, text))), [post], t)
        else
          match json
          case None => AuthAttempt(Died(ResponseDecodeFailed), [post], t)
          case Some(resp) =>
            AuthAttempt(Returned(LeaseEnd(t, resp.leaseDuration), resp.clientToken, resp.nonce, None), [post], t)
  }
}
