/**
 * The agent's control loops (main, wait_until_lease_is_expired,
 * wait_for_active_vault_server and ec2_auth_against_vault_server): first as
 * functions on a value of the whole world, then as an object whose methods
 * run the same loops step by step and are proved to agree with them.
 *
 * The outside world is a finite script of answers: what the resolver says to
 * each lookup, what each login attempt meets, and how each pair of file writes
 * ends. When the script runs out the model stops with `Exhausted`. If the DNS
 * or login-attempt script ran out, the real process would still be waiting or
 * retrying at that point; if the write script ran out, it would be in the
 * middle of `ioutil.WriteFile`.
 */
module Agent {
  import opened Wrappers
  import opened Clock
  import opened Login

  /** What net.LookupHost reports: success, a *net.DNSError, or any other error. */
  datatype DnsAnswer = Resolved | DnsError | OtherLookupError

  /** How one ioutil.WriteFile call ends, and how long it took. */
  datatype WriteResult = Wrote(elapsed: nat) | WriteFailed

  /** The two writes that follow a successful login: the token file, then the nonce file. */
  datatype Persisting = Persisting(token: WriteResult, nonce: WriteResult)

  /** The state the agent acts on, together with the answers still to come. */
  datatype World = World(
    clock: Instant,
    token: File,
    nonce: File,
    dns: seq<DnsAnswer>,
    attempts: seq<Attempt>,
    writes: seq<Persisting>,
    posts: seq<Post>)   // every login request sent so far, oldest first

  datatype Halt = Fatal(cause: Cause) | Exhausted

  datatype Outcome<+T> = Ok(value: T) | Stop(halt: Halt)

  datatype Step<+T> = Step(out: Outcome<T>, w: World)

  /** What ec2_auth_against_vault_server's loop leaves in its three variables on success. */
  datatype Credentials = Credentials(leaseEnd: Instant, token: string, nonce: string)

  /** The pause between two retries: `time.Second * time.Duration(config.RetryDelay)`. */
  function RetryPause(cfg: Config): (d: Duration)
    ensures InDurationRange(cfg.retryDelay * Second) ==> d == cfg.retryDelay * Second
    ensures (cfg.retryDelay * Second - d) % Modulus == 0
  {
    SecondsToDuration(cfg.retryDelay)
  }

  // ---------------------------------------------------------------- gate

  /** The number of lookups at the front of `answers` that fail with a *net.DNSError. */
  function LeadingDnsErrors(answers: seq<DnsAnswer>): (k: nat)
    ensures k <= |answers|
    ensures forall i :: 0 <= i < k ==> answers[i] == DnsError
    ensures k < |answers| ==> answers[k] != DnsError
  {
    if answers == [] || answers[0] != DnsError then 0
    else 1 + LeadingDnsErrors(answers[1..])
  }

  /**
   * wait_for_active_vault_server: look the server up until it resolves,
   * sleeping the retry delay after each *net.DNSError; any other error is fatal.
   * Only the clock and the resolver's script change.
   */
  function AwaitServer(cfg: Config, w: World): (r: Step<()>)
    ensures r.w == w.(clock := r.w.clock, dns := r.w.dns)
    ensures r.out.Ok? ==> |r.w.dns| < |w.dns|
    decreases |w.dns|
  {
    if w.dns == [] then Step(Stop(Exhausted), w)
    else
      var rest := w.(dns := w.dns[1..]);
      match w.dns[0]
      case Resolved => Step(Ok(()), rest)
      case OtherLookupError => Step(Stop(Fatal(ServerLookupFailed)), rest)
      case DnsError => AwaitServer(cfg, rest.(clock := AfterSleep(w.clock, RetryPause(cfg))))
  }

  // ---------------------------------------------------------------- login with retry

  /** The number of attempts at the front of `attempts` that the server rejects. */
  function LeadingRejections(attempts: seq<Attempt>): (k: nat)
    ensures k <= |attempts|
    ensures forall i :: 0 <= i < k ==> Rejects(attempts[i])
    ensures k < |attempts| ==> !Rejects(attempts[k])
  {
    if attempts == [] || !Rejects(attempts[0]) then 0
    else 1 + LeadingRejections(attempts[1..])
  }

  /**
   * The loop of ec2_auth_against_vault_server: call vault_ec2_auth until it
   * returns no error, sleeping the retry delay after each error. Neither file
   * is touched, and on success the lease is measured from the clock at which
   * the accepted reply arrived.
   */
  function RetryLogin(cfg: Config, w: World): (r: Step<Credentials>)
    ensures r.w.token == w.token && r.w.nonce == w.nonce
    ensures r.w.dns == w.dns && r.w.writes == w.writes
    decreases |w.attempts|
  {
    if w.attempts == [] then Step(Stop(Exhausted), w)
    else
      var a := Ec2Auth(cfg, w.nonce, w.attempts[0], w.clock);
      var next := w.(attempts := w.attempts[1..], clock := a.clock, posts := w.posts + a.sent);
      match a.outcome
      case Died(cause) => Step(Stop(Fatal(cause)), next)
      case Returned(leaseEnd, token, nonce, err) =>
        if err.Some? then RetryLogin(cfg, next.(clock := AfterSleep(next.clock, RetryPause(cfg))))
        else Step(Ok(Credentials(leaseEnd, token, nonce)), next)
  }

  /**
   * Writing the token file and then the nonce file; a failed write is fatal at
   * once, so the nonce file is not written after the token write fails.
   */
  function Persist(w: World, c: Credentials): (r: Step<()>)
    ensures r.w.dns == w.dns && r.w.attempts == w.attempts && r.w.posts == w.posts
    ensures w.writes != [] ==> r.w.writes == w.writes[1..]
    ensures w.clock <= r.w.clock
    ensures r.out.Ok? <==> w.writes != [] && w.writes[0].token.Wrote? && w.writes[0].nonce.Wrote?
    ensures r.out.Ok? ==> r.w.token == Written(w.token, c.token) && r.w.nonce == Written(w.nonce, c.nonce)
    ensures r.out == Stop(Fatal(NonceWriteFailed)) ==> r.w.token == Written(w.token, c.token) && r.w.nonce == w.nonce
    ensures r.out.Stop? && r.out != Stop(Fatal(NonceWriteFailed)) ==> r.w.token == w.token && r.w.nonce == w.nonce
  {
    if w.writes == [] then Step(Stop(Exhausted), w)
    else
      var p := w.writes[0];
      var w0 := w.(writes := w.writes[1..]);
      match p.token
      case WriteFailed => Step(Stop(Fatal(TokenWriteFailed)), w0)
      case Wrote(e1) =>
        var w1 := w0.(token := Written(w.token, c.token), clock := w.clock + e1);
        match p.nonce
        case WriteFailed => Step(Stop(Fatal(NonceWriteFailed)), w1)
        case Wrote(e2) => Step(Ok(()), w1.(nonce := Written(w.nonce, c.nonce), clock := w1.clock + e2))
  }

  /**
   * ec2_auth_against_vault_server: retry the login until it succeeds, persist
   * the token and nonce, and return the midpoint between the clock after the
   * writes and the lease end.
   */
  function AuthPass(cfg: Config, w: World): (r: Step<Instant>)
    ensures r.w.dns == w.dns
    ensures r.out.Ok? ==> r.w.token.Present? && r.w.nonce.Present?
  {
    var login := RetryLogin(cfg, w);
    match login.out
    case Stop(h) => Step(Stop(h), login.w)
    case Ok(c) =>
      var saved := Persist(login.w, c);
      match saved.out
      case Stop(h) => Step(Stop(h), saved.w)
      case Ok(_) => Step(Ok(Midpoint(saved.w.clock, c.leaseEnd)), saved.w)
  }

  // ---------------------------------------------------------------- main

  /**
   * One pass of main's loop: sleep until `renewal`, wait for the server, then
   * authenticate and persist. Only a pass that opens the gate uses up a DNS answer.
   */
  function MainPass(cfg: Config, w: World, renewal: Instant): (r: Step<Instant>)
    ensures r.out.Ok? ==> |r.w.dns| < |w.dns|
    ensures r.out.Ok? ==> r.w.token.Present? && r.w.nonce.Present?
  {
    var gate := AwaitServer(cfg, w.(clock := WakeTime(w.clock, renewal)));
    match gate.out
    case Stop(h) => Step(Stop(h), gate.w)
    case Ok(_) => AuthPass(cfg, gate.w)
  }

  /**
   * main's loop from a given renewal time: one pass, and further passes while
   * in agent mode. A normal exit carries the renewal time the last pass computed.
   */
  function RunFrom(cfg: Config, w: World, renewal: Instant): (r: Step<Instant>)
    ensures r.out.Ok? ==> r.w.token.Present? && r.w.nonce.Present?
    decreases |w.dns|
  {
    var pass := MainPass(cfg, w, renewal);
    match pass.out
    case Stop(_) => pass
    case Ok(next) => if cfg.agent then RunFrom(cfg, pass.w, next) else pass
  }

  /** main: the renewal time starts at the current time; a normal exit leaves both files written. */
  function Lifetime(cfg: Config, w: World): (r: Step<Instant>)
    ensures r.out.Ok? ==> r.w.token.Present? && r.w.nonce.Present?
  {
    RunFrom(cfg, w, w.clock)
  }

  // ---------------------------------------------------------------- the process

  /** The running process: its configuration, the clock, the two files, and the outside world's script. */
  class Process {
    const cfg: Config
    var clock: Instant
    var tokenFile: File
    var nonceFile: File
    var dns: seq<DnsAnswer>
    var attempts: seq<Attempt>
    var writes: seq<Persisting>
    var posts: seq<Post>

    function State(): (w: World)
      reads this
    {
      World(clock, tokenFile, nonceFile, dns, attempts, writes, posts)
    }

    constructor (cfg: Config, w: World)
      ensures this.cfg == cfg && State() == w
    {
      this.cfg := cfg;
      clock, tokenFile, nonceFile := w.clock, w.token, w.nonce;
      dns, attempts, writes, posts := w.dns, w.attempts, w.writes, w.posts;
    }

    /** time.Sleep(d). */
    method Sleep(d: Duration)
      modifies this`clock
      ensures clock == AfterSleep(old(clock), d)
    {
      if 0 < d {
        clock := clock + d;
      }
    }

    method WaitUntilLeaseIsExpired(renewal: Instant)
      modifies this`clock
      ensures clock == WakeTime(old(clock), renewal)
    {
      var delay := Sub(renewal, clock);
      Sleep(delay);
    }

    method WaitForActiveVaultServer() returns (r: Outcome<()>)
      modifies this
      ensures Step(r, State()) == AwaitServer(cfg, old(State()))
    {
      while dns != []
        invariant AwaitServer(cfg, State()) == AwaitServer(cfg, old(State()))
        decreases |dns|
      {
        var answer := dns[0];
        dns := dns[1..];
        match answer
        case Resolved =>
          return Ok(());
        case OtherLookupError =>
          return Stop(Fatal(ServerLookupFailed));
        case DnsError =>
          Sleep(RetryPause(cfg));
      }
      return Stop(Exhausted);
    }

    /** The retry loop at the head of ec2_auth_against_vault_server. */
    method RetryUntilAuthenticated() returns (r: Outcome<Credentials>)
      modifies this
      ensures Step(r, State()) == RetryLogin(cfg, old(State()))
    {
      while attempts != []
        invariant RetryLogin(cfg, State()) == RetryLogin(cfg, old(State()))
        decreases |attempts|
      {
        var a := Ec2Auth(cfg, nonceFile, attempts[0], clock);
        attempts, clock, posts := attempts[1..], a.clock, posts + a.sent;
        match a.outcome
        case Died(cause) =>
          return Stop(Fatal(cause));
        case Returned(leaseEnd, token, nonce, err) =>
          if err.None? {
            return Ok(Credentials(leaseEnd, token, nonce));
          }
          Sleep(RetryPause(cfg));
      }
      return Stop(Exhausted);
    }

    /** The two writes of ec2_auth_against_vault_server, token file first. */
    method PersistCredentials(c: Credentials) returns (r: Outcome<()>)
      modifies this
      ensures Step(r, State()) == Persist(old(State()), c)
    {
      if writes == [] {
        return Stop(Exhausted);
      }
      var p := writes[0];
      writes := writes[1..];
      if p.token.WriteFailed? {
        return Stop(Fatal(TokenWriteFailed));
      }
      tokenFile := Written(tokenFile, c.token);
      clock := clock + p.token.elapsed;
      if p.nonce.WriteFailed? {
        return Stop(Fatal(NonceWriteFailed));
      }
      nonceFile := Written(nonceFile, c.nonce);
      clock := clock + p.nonce.elapsed;
      return Ok(());
    }

    method Ec2AuthAgainstVaultServer() returns (r: Outcome<Instant>)
      modifies this
      ensures Step(r, State()) == AuthPass(cfg, old(State()))
    {
      var login := RetryUntilAuthenticated();
      if login.Stop? {
        return Stop(login.halt);
      }
      var saved := PersistCredentials(login.value);
      if saved.Stop? {
        return Stop(saved.halt);
      }
      return Ok(Midpoint(clock, login.value.leaseEnd));
    }

    /** main. */
    method Run() returns (r: Outcome<Instant>)
      modifies this
      ensures Step(r, State()) == Lifetime(cfg, old(State()))
    {
      var renewal := clock;
      while true
        invariant RunFrom(cfg, State(), renewal) == Lifetime(cfg, old(State()))
        decreases |dns|
      {
        ghost var before := State();
        WaitUntilLeaseIsExpired(renewal);
        assert State() == before.(clock := WakeTime(before.clock, renewal));
        var gate := WaitForActiveVaultServer();
        if gate.Stop? {
          return Stop(gate.halt);
        }
        var pass := Ec2AuthAgainstVaultServer();
        if pass.Stop? || !cfg.agent {
          return pass;
        }
        renewal := pass.value;
      }
    }
  }
}
