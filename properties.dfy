/** Properties of the agent's time arithmetic, login rules and control loops. */
module Properties {
  import opened Wrappers
  import opened Clock
  import opened Login
  import opened Agent

  // ---------------------------------------------------------------- midpoint

  lemma MidpointSymmetric(a: Instant, b: Instant)
    ensures Midpoint(a, b) == Midpoint(b, a)
  {
  }

  lemma MidpointOfSame(a: Instant)
    ensures Midpoint(a, a) == a
  {
  }

  /** Within one Duration of each other, the midpoint is the earlier instant plus half the gap, rounded down. */
  lemma MidpointExact(a: Instant, b: Instant)
    requires InDurationRange(Max(a, b) - Min(a, b))
    ensures Midpoint(a, b) == Min(a, b) + (Max(a, b) - Min(a, b)) / 2
    ensures Midpoint(a, b) - Min(a, b) <= Max(a, b) - Midpoint(a, b) <= Midpoint(a, b) - Min(a, b) + 1
  {
  }

  /** Further apart than one Duration, Time.Sub saturates and the midpoint falls short of the centre. */
  lemma MidpointSaturates(a: Instant, b: Instant)
    requires Max(a, b) - Min(a, b) > MaxDuration
    ensures Midpoint(a, b) == Min(a, b) + MaxDuration / 2
  {
  }

  /**
   * A lease of `seconds` obtained at t0, and the midpoint taken at t1 no later
   * than the lease end: the renewal is t1 plus half the time left, so it lies
   * in [t1, lease end]; taken at t0 it is half the lease after t0.
   */
  lemma RenewalWithinLease(t0: Instant, t1: Instant, seconds: Int32)
    requires t0 <= t1 <= LeaseEnd(t0, seconds)
    ensures Midpoint(t1, LeaseEnd(t0, seconds)) == t1 + (LeaseEnd(t0, seconds) - t1) / 2
    ensures t1 <= Midpoint(t1, LeaseEnd(t0, seconds)) <= LeaseEnd(t0, seconds)
    ensures t1 == t0 ==> Midpoint(t1, LeaseEnd(t0, seconds)) == t0 + seconds * Second / 2
  {
    MidpointExact(t1, LeaseEnd(t0, seconds));
  }

  /**
   * When the configured delay fits a Duration, a retry sleeps exactly that many
   * seconds, and a zero or negative delay retries at once.
   */
  lemma RetryPauseExact(cfg: Config, t: Instant)
    requires InDurationRange(cfg.retryDelay * Second)
    ensures AfterSleep(t, RetryPause(cfg)) == t + Max(cfg.retryDelay, 0) * Second
  {
  }

  // ---------------------------------------------------------------- login rules

  /**
   * For an attempt whose identity document was fetched and whose POST got a
   * reply, the status test decides exactly when vault_ec2_auth hands its caller
   * an error (empty token and nonce, so the caller retries).
   */
  lemma FailureStatusMeansRetry(cfg: Config, f: File, proof: string, status: int, text: string,
                                json: Option<LoginResponse>, elapsed: nat, now: Instant)
    ensures var r := Ec2Auth(cfg, f, Attempt(Some(proof), Reply(status, text, json), elapsed), now);
      && (IsFailureStatus(status) <==> r.outcome.Returned? && r.outcome.err.Some?)
      && (IsFailureStatus(status) ==> r.outcome.token == "" && r.outcome.nonce == "")
      && (!IsFailureStatus(status) && json.Some? ==>
            r.outcome.Returned? && r.outcome.token == json.value.clientToken && r.outcome.nonce == json.value.nonce)
  {
  }

  /**
   * Every attempt is exactly one of: rejected by status, accepted with a
   * decodable body, or one of the three fatal kinds (no identity document, no
   * reply, a 2xx body that does not decode).
   */
  lemma AttemptClassified(a: Attempt)
    ensures var fetchFailed := a.pkcs7.None?;
      var postFailed := a.pkcs7.Some? && a.reply.TransportFailure?;
      var undecodable := a.pkcs7.Some? && a.reply.Reply? && 200 <= a.reply.status < 300 && a.reply.json.None?;
      && (Rejects(a) || Accepts(a) || fetchFailed || postFailed || undecodable)
      && !(Rejects(a) && Accepts(a))
      && ((Rejects(a) || Accepts(a)) ==> !fetchFailed && !postFailed && !undecodable)
      && (Rejects(a) ==> !(200 <= a.reply.status < 300))
      && (Accepts(a) ==> 200 <= a.reply.status < 300)
  {
  }

  /**
   * The marshalled request has a "nonce" key exactly when the nonce file exists
   * and is not empty, and that key's value is the file's contents when it can be read.
   */
  lemma RequestNonceField(cfg: Config, proof: string, f: File)
    ensures var kv := Fields(BuildRequest(cfg, proof, f));
      && ((exists i :: 0 <= i < |kv| && kv[i].0 == "nonce") <==> f.Present? && |f.contents| > 0)
      && (forall i :: 0 <= i < |kv| && kv[i].0 == "nonce" && f.readable ==> kv[i].1 == f.contents)
  {
    var kv := Fields(BuildRequest(cfg, proof, f));
    assert kv[0].0 == "role" && kv[1].0 == "pkcs7";
    assert "pkcs7"[0] != "nonce"[0];
    if f.Present? && |f.contents| > 0 {
      assert kv[2].0 == "nonce";
    }
  }

  /**
   * The nonce a successful login writes is what the next login sends: a
   * re-login with that nonce, or a first login when the server sent none.
   * A file that could not be read before the write still cannot.
   */
  lemma NonceRoundTrip(cfg: Config, proof: string, f: File, nonce: string)
    ensures var next := BuildRequest(cfg, proof, Written(f, nonce)).nonce;
      && ((f.Absent? || f.readable) ==> next == if |nonce| > 0 then Some(nonce) else None)
      && ((f.Present? && !f.readable) ==> next == if |nonce| > 0 then Some("") else None)
  {
  }

  // ---------------------------------------------------------------- gate

  /**
   * wait_for_active_vault_server sleeps once per leading *net.DNSError and is
   * decided by the first other answer: a resolution opens the gate, any other
   * error is fatal.
   */
  lemma {:induction false} AwaitServerDecided(cfg: Config, w: World)
    ensures var k := LeadingDnsErrors(w.dns);
      var r := AwaitServer(cfg, w);
      && (k == |w.dns| ==> r.out == Stop(Exhausted) && r.w.dns == [])
      && (k < |w.dns| ==> r.w.dns == w.dns[k + 1..])
      && (k < |w.dns| && w.dns[k] == Resolved ==> r.out == Ok(()))
      && (k < |w.dns| && w.dns[k] == OtherLookupError ==> r.out == Stop(Fatal(ServerLookupFailed)))
    decreases |w.dns|
  {
    if w.dns != [] && w.dns[0] == DnsError {
      var next := w.(dns := w.dns[1..], clock := AfterSleep(w.clock, RetryPause(cfg)));
      assert AwaitServer(cfg, w) == AwaitServer(cfg, next);
      AwaitServerDecided(cfg, next);
      var k := LeadingDnsErrors(next.dns);
      assert LeadingDnsErrors(w.dns) == k + 1;
      if k < |next.dns| {
        assert next.dns[k + 1..] == w.dns[k + 2..];
      }
    }
  }

  /** Each leading *net.DNSError costs one retry pause (nothing, if the pause is not positive). */
  lemma {:induction false} AwaitServerClock(cfg: Config, w: World)
    ensures AwaitServer(cfg, w).w.clock == w.clock + LeadingDnsErrors(w.dns) * Max(RetryPause(cfg), 0)
    decreases |w.dns|
  {
    if w.dns != [] && w.dns[0] == DnsError {
      var pause := Max(RetryPause(cfg), 0);
      var next := w.(dns := w.dns[1..], clock := AfterSleep(w.clock, RetryPause(cfg)));
      assert AwaitServer(cfg, w) == AwaitServer(cfg, next);
      AwaitServerClock(cfg, next);
      assert LeadingDnsErrors(w.dns) == LeadingDnsErrors(next.dns) + 1;
      assert next.clock == w.clock + pause;
      OneMorePause(w.clock, LeadingDnsErrors(next.dns), pause);
    }
  }

  lemma OneMorePause(start: int, k: nat, pause: int)
    ensures start + pause + k * pause == start + (k + 1) * pause
  {
  }

  // ---------------------------------------------------------------- retry

  /**
   * The retry loop is decided by the first attempt the server does not reject:
   * accepted, it yields that one response's token, nonce and lease end; any
   * other outcome of it is fatal; with every attempt rejected it never ends.
   */
  lemma {:induction false} RetryLoginDecided(cfg: Config, w: World)
    ensures var k := LeadingRejections(w.attempts);
      var r := RetryLogin(cfg, w);
      && (k == |w.attempts| ==> r.out == Stop(Exhausted))
      && (k < |w.attempts| && Accepts(w.attempts[k]) ==>
            var resp := w.attempts[k].reply.json.value;
            r.out == Ok(Credentials(LeaseEnd(r.w.clock, resp.leaseDuration), resp.clientToken, resp.nonce)))
      && (k < |w.attempts| && w.attempts[k].pkcs7.None? ==> r.out == Stop(Fatal(IdentityFetchFailed)))
      && (k < |w.attempts| && w.attempts[k].pkcs7.Some? && w.attempts[k].reply.TransportFailure? ==>
            r.out == Stop(Fatal(LoginPostFailed)))
      && ((k < |w.attempts| && w.attempts[k].pkcs7.Some? && w.attempts[k].reply.Reply? && !Rejects(w.attempts[k]) &&
           w.attempts[k].reply.json.None?) ==> r.out == Stop(Fatal(ResponseDecodeFailed)))
    decreases |w.attempts|
  {
    if w.attempts != [] && Rejects(w.attempts[0]) {
      var a := Ec2Auth(cfg, w.nonce, w.attempts[0], w.clock);
      var next := w.(attempts := w.attempts[1..], clock := AfterSleep(a.clock, RetryPause(cfg)), posts := w.posts + a.sent);
      RetryLoginDecided(cfg, next);
      assert LeadingRejections(w.attempts) == LeadingRejections(next.attempts) + 1;
    }
  }

  /** The retry loop consumes the rejected attempts and the one that decides it, and no more. */
  lemma {:induction false} RetryLoginConsumes(cfg: Config, w: World)
    ensures var k := LeadingRejections(w.attempts);
      var r := RetryLogin(cfg, w);
      r.w.attempts == if k < |w.attempts| then w.attempts[k + 1..] else []
    decreases |w.attempts|
  {
    if w.attempts != [] && Rejects(w.attempts[0]) {
      var a := Ec2Auth(cfg, w.nonce, w.attempts[0], w.clock);
      var next := w.(attempts := w.attempts[1..], clock := AfterSleep(a.clock, RetryPause(cfg)), posts := w.posts + a.sent);
      RetryLoginConsumes(cfg, next);
      var k := LeadingRejections(next.attempts);
      assert LeadingRejections(w.attempts) == k + 1;
      if k < |next.attempts| {
        assert next.attempts[k + 1..] == w.attempts[k + 2..];
      }
    }
  }

  /**
   * The retry loop only appends to the record of POSTs, one POST per attempt
   * consumed, except that an attempt whose identity fetch fails sends none.
   */
  lemma {:induction false} RetryLoginPostCount(cfg: Config, w: World)
    ensures var r := RetryLogin(cfg, w);
      var sent := |r.w.posts| - |w.posts|;
      && w.posts <= r.w.posts
      && sent <= |w.attempts| - |r.w.attempts|
      && (r.out.Ok? ==> sent == |w.attempts| - |r.w.attempts|)
    decreases |w.attempts|
  {
    RetryLoginConsumes(cfg, w);
    if w.attempts != [] {
      var a := Ec2Auth(cfg, w.nonce, w.attempts[0], w.clock);
      if a.outcome.Returned? && a.outcome.err.Some? {
        var next := w.(attempts := w.attempts[1..], clock := AfterSleep(a.clock, RetryPause(cfg)), posts := w.posts + a.sent);
        RetryLoginPostCount(cfg, next);
        RetryLoginConsumes(cfg, next);
      }
    }
  }

  /**
   * Every login request the retry loop sends is built from the configured role,
   * that attempt's identity document and the nonce file as it stood before the
   * loop, since nothing writes it in between.
   */
  lemma {:induction false} RetryLoginPosts(cfg: Config, w: World)
    ensures var r := RetryLogin(cfg, w);
      forall j :: 0 <= j < |r.w.posts| - |w.posts| && j < |w.attempts| ==>
        w.attempts[j].pkcs7.Some? &&
        r.w.posts[|w.posts| + j] == Post(LoginUrl(cfg), BuildRequest(cfg, w.attempts[j].pkcs7.value, w.nonce))
    decreases |w.attempts|
  {
    RetryLoginPostCount(cfg, w);
    if w.attempts != [] {
      var a := Ec2Auth(cfg, w.nonce, w.attempts[0], w.clock);
      if a.outcome.Returned? && a.outcome.err.Some? {
        var next := w.(attempts := w.attempts[1..], clock := AfterSleep(a.clock, RetryPause(cfg)), posts := w.posts + a.sent);
        var r := RetryLogin(cfg, next);
        assert r == RetryLogin(cfg, w);
        RetryLoginPosts(cfg, next);
        RetryLoginPostCount(cfg, next);
        forall j | 0 <= j < |r.w.posts| - |w.posts| && j < |w.attempts|
          ensures w.attempts[j].pkcs7.Some?
          ensures r.w.posts[|w.posts| + j] == Post(LoginUrl(cfg), BuildRequest(cfg, w.attempts[j].pkcs7.value, w.nonce))
        {
          if j == 0 {
            assert r.w.posts[|w.posts|] == next.posts[|w.posts|];
          } else {
            assert w.attempts[j] == next.attempts[j - 1];
            assert r.w.posts[|w.posts| + j] == r.w.posts[|next.posts| + (j - 1)];
          }
        }
      }
    }
  }

  // ---------------------------------------------------------------- one pass

  /**
   * A pass that succeeds consumed some rejected attempts and then one accepted
   * one, and both files now hold that accepted response's token and nonce.
   */
  lemma AuthPassPersistsOneReply(cfg: Config, w: World)
    ensures var p := AuthPass(cfg, w);
      var n := |w.attempts| - |p.w.attempts|;
      p.out.Ok? ==>
        && 0 < n && Accepts(w.attempts[n - 1])
        && (forall i :: 0 <= i < n - 1 ==> Rejects(w.attempts[i]))
        && p.w.token == Written(w.token, w.attempts[n - 1].reply.json.value.clientToken)
        && p.w.nonce == Written(w.nonce, w.attempts[n - 1].reply.json.value.nonce)
        && |p.w.writes| == |w.writes| - 1
  {
    PassConsumesUpToAccepted(cfg, w);
  }

  /**
   * A pass that stops leaves both files as they were, except when the nonce
   * write fails after the token write: then the token is new and the nonce stale.
   */
  lemma AuthPassFailureKeepsFiles(cfg: Config, w: World)
    ensures var p := AuthPass(cfg, w);
      var n := |w.attempts| - |p.w.attempts|;
      && (p.out.Stop? && p.out != Stop(Fatal(NonceWriteFailed)) ==> p.w.token == w.token && p.w.nonce == w.nonce)
      && (p.out == Stop(Fatal(NonceWriteFailed)) ==>
            0 < n && Accepts(w.attempts[n - 1]) &&
            p.w.token == Written(w.token, w.attempts[n - 1].reply.json.value.clientToken) &&
            p.w.nonce == w.nonce)
  {
    PassConsumesUpToAccepted(cfg, w);
    RetryLoginDecided(cfg, w);
    var l := RetryLogin(cfg, w);
    if l.out.Stop? {
      assert AuthPass(cfg, w) == Step(Stop(l.out.halt), l.w);
      assert l.out.halt != Fatal(NonceWriteFailed);
    }
  }

  /**
   * A successful pass returns the midpoint between the clock after the writes
   * and the end of the accepted lease, which was measured from the reply's arrival.
   */
  lemma AuthPassRenewal(cfg: Config, w: World)
    ensures var p := AuthPass(cfg, w);
      var l := RetryLogin(cfg, w);
      var n := |w.attempts| - |p.w.attempts|;
      p.out.Ok? ==>
        && 0 < n && Accepts(w.attempts[n - 1])
        && l.w.clock <= p.w.clock
        && p.out.value == Midpoint(p.w.clock, LeaseEnd(l.w.clock, w.attempts[n - 1].reply.json.value.leaseDuration))
  {
    PassConsumesUpToAccepted(cfg, w);
    var k := LeadingRejections(w.attempts);
    if AuthPass(cfg, w).out.Ok? {
      RetryLoginDecided(cfg, w);
      var l := RetryLogin(cfg, w);
      assert l.out.value.leaseEnd == LeaseEnd(l.w.clock, w.attempts[k].reply.json.value.leaseDuration);
    }
  }

  /**
   * Once the retry loop succeeds, the login it returns came from the first
   * attempt not rejected, and the pass consumes no attempt after it.
   */
  lemma PassConsumesUpToAccepted(cfg: Config, w: World)
    ensures var l := RetryLogin(cfg, w);
      var k := LeadingRejections(w.attempts);
      l.out.Ok? ==>
        && k < |w.attempts| && Accepts(w.attempts[k])
        && |w.attempts| - |AuthPass(cfg, w).w.attempts| == k + 1
        && l.out.value.token == w.attempts[k].reply.json.value.clientToken
        && l.out.value.nonce == w.attempts[k].reply.json.value.nonce
  {
    RetryLoginDecided(cfg, w);
    RetryLoginConsumes(cfg, w);
    var l := RetryLogin(cfg, w);
    if l.out.Ok? {
      assert AuthPass(cfg, w).w.attempts == Persist(l.w, l.out.value).w.attempts;
    }
  }

  /** A pass consumes attempts from the front of the script. */
  lemma AuthPassConsumes(cfg: Config, w: World)
    ensures var p := AuthPass(cfg, w);
      |p.w.attempts| <= |w.attempts| && p.w.attempts == w.attempts[|w.attempts| - |p.w.attempts|..]
  {
    RetryLoginConsumes(cfg, w);
    var l := RetryLogin(cfg, w);
    if l.out.Ok? {
      assert AuthPass(cfg, w).w.attempts == l.w.attempts;
    }
  }

  /** After a successful pass the files reflect the pass's accepted response. */
  lemma PassReflects(cfg: Config, w: World)
    requires AuthPass(cfg, w).out.Ok?
    ensures var p := AuthPass(cfg, w);
      exists i :: 0 <= i < |w.attempts| - |p.w.attempts| && ReflectsReply(p.w, w.attempts[i])
  {
    AuthPassPersistsOneReply(cfg, w);
    var p := AuthPass(cfg, w);
    var n := |w.attempts| - |p.w.attempts|;
    assert ReflectsReply(p.w, w.attempts[n - 1]);
  }

  // ---------------------------------------------------------------- main

  /** The token and nonce files hold the token and nonce of one and the same accepted response. */
  ghost predicate ReflectsReply(w: World, a: Attempt) {
    Accepts(a) && w.token.Present? && w.nonce.Present? &&
    w.token.contents == a.reply.json.value.clientToken &&
    w.nonce.contents == a.reply.json.value.nonce
  }

  /** The attempts still to come at `w1` are what remained of those at `w0` after some were used. */
  ghost predicate Suffix(w0: World, w1: World) {
    |w1.attempts| <= |w0.attempts| && w1.attempts == w0.attempts[|w0.attempts| - |w1.attempts|..]
  }

  /** At `w1` the files hold one accepted response among the attempts used since `w0`. */
  ghost predicate Reflects(w0: World, w1: World) {
    exists i :: 0 <= i < |w0.attempts| - |w1.attempts| && ReflectsReply(w1, w0.attempts[i])
  }

  /**
   * How a stretch of the run from `w0` to `r` may leave the files: stopped by a
   * failed nonce write, untouched, or holding one accepted response among the
   * attempts made in the stretch.
   */
  ghost predicate EndsConsistent(w0: World, r: Step<Instant>) {
    || r.out == Stop(Fatal(NonceWriteFailed))
    || (r.w.token == w0.token && r.w.nonce == w0.nonce)
    || Reflects(w0, r.w)
  }

  /** One pass consumes attempts from the front of the script and ends consistently. */
  lemma MainPassConsistent(cfg: Config, w: World, renewal: Instant)
    ensures var p := MainPass(cfg, w, renewal);
      Suffix(w, p.w) && EndsConsistent(w, p) && (p.out.Ok? ==> Reflects(w, p.w))
  {
    var gate := AwaitServer(cfg, w.(clock := WakeTime(w.clock, renewal)));
    if gate.out.Ok? {
      AuthPassConsumes(cfg, gate.w);
      AuthPassFailureKeepsFiles(cfg, gate.w);
      if AuthPass(cfg, gate.w).out.Ok? {
        PassReflects(cfg, gate.w);
      }
    }
  }

  /**
   * A stretch from `w0` to `w1` that ends with the files reflecting an accepted
   * response, followed by a stretch from `w1` to `r` that ends consistently,
   * ends consistently as a whole.
   */
  lemma ChainConsistent(w0: World, w1: World, r: Step<Instant>)
    requires Suffix(w0, w1) && Suffix(w1, r.w)
    requires Reflects(w0, w1)
    requires EndsConsistent(w1, r)
    ensures Suffix(w0, r.w) && EndsConsistent(w0, r)
  {
    assert r.w.attempts == w0.attempts[|w0.attempts| - |r.w.attempts|..];
    if r.out != Stop(Fatal(NonceWriteFailed)) {
      if r.w.token == w1.token && r.w.nonce == w1.nonce {
        var i :| 0 <= i < |w0.attempts| - |w1.attempts| && ReflectsReply(w1, w0.attempts[i]);
        assert ReflectsReply(r.w, w0.attempts[i]);
      } else {
        var i :| 0 <= i < |w1.attempts| - |r.w.attempts| && ReflectsReply(r.w, w1.attempts[i]);
        assert w1.attempts[i] == w0.attempts[|w0.attempts| - |w1.attempts| + i];
      }
    }
  }

  /**
   * However many passes the process makes, when it stops the two files either
   * are as they were at start-up or hold the token and nonce of one accepted
   * response among the attempts made; the one exception is a fatal failure of
   * the nonce write after the token write.
   */
  lemma {:induction false} FilesReflectOneReply(cfg: Config, w: World, renewal: Instant)
    ensures var r := RunFrom(cfg, w, renewal);
      Suffix(w, r.w) && EndsConsistent(w, r)
    decreases |w.dns|
  {
    var pass := MainPass(cfg, w, renewal);
    var r := RunFrom(cfg, w, renewal);
    RunFromStep(cfg, w, renewal);
    MainPassConsistent(cfg, w, renewal);
    if pass.out.Ok? && cfg.agent {
      FilesReflectOneReply(cfg, pass.w, pass.out.value);
      ChainConsistent(w, pass.w, r);
    }
  }

  /** main's loop is one pass, followed by the rest of the loop when the pass succeeds in agent mode. */
  lemma RunFromStep(cfg: Config, w: World, renewal: Instant)
    ensures var pass := MainPass(cfg, w, renewal);
      RunFrom(cfg, w, renewal) == if pass.out.Ok? && cfg.agent then RunFrom(cfg, pass.w, pass.out.value) else pass
  {
  }

  /** In agent mode the loop never exits of its own accord. */
  lemma {:induction false} AgentNeverExits(cfg: Config, w: World, renewal: Instant)
    requires cfg.agent
    ensures RunFrom(cfg, w, renewal).out.Stop?
    decreases |w.dns|
  {
    var pass := MainPass(cfg, w, renewal);
    if pass.out.Ok? {
      AgentNeverExits(cfg, pass.w, pass.out.value);
    }
  }

  /** The time taken by the first `n` attempts of a script, from start to reply. */
  function ElapsedSum(attempts: seq<Attempt>, n: nat): (total: nat)
    requires n <= |attempts|
  {
    if n == 0 then 0 else attempts[0].elapsed + ElapsedSum(attempts[1..], n - 1)
  }

  /**
   * The retry loop ends at the start clock plus the time each attempt it used
   * took to get its reply, plus one retry pause (nothing, if the pause is not
   * positive) after each rejection; so it never moves the clock back.
   */
  lemma {:induction false} RetryLoginClock(cfg: Config, w: World)
    ensures var k := LeadingRejections(w.attempts);
      var pause := Max(RetryPause(cfg), 0);
      RetryLogin(cfg, w).w.clock == w.clock + ElapsedSum(w.attempts, Min(k + 1, |w.attempts|)) + k * pause
    ensures w.clock <= RetryLogin(cfg, w).w.clock
    decreases |w.attempts|
  {
    var pause := Max(RetryPause(cfg), 0);
    if w.attempts != [] {
      var a := Ec2Auth(cfg, w.nonce, w.attempts[0], w.clock);
      var e := w.attempts[0].elapsed;
      if Rejects(w.attempts[0]) {
        var next := w.(attempts := w.attempts[1..], clock := AfterSleep(a.clock, RetryPause(cfg)), posts := w.posts + a.sent);
        assert RetryLogin(cfg, w) == RetryLogin(cfg, next);
        assert next.clock == w.clock + e + pause;
        RetryLoginClock(cfg, next);
        var k := LeadingRejections(next.attempts);
        assert LeadingRejections(w.attempts) == k + 1;
        assert Min(k + 2, |w.attempts|) == Min(k + 1, |next.attempts|) + 1;
        assert ElapsedSum(w.attempts, Min(k + 2, |w.attempts|)) == e + ElapsedSum(next.attempts, Min(k + 1, |next.attempts|));
        OneMorePause(w.clock + e + ElapsedSum(next.attempts, Min(k + 1, |next.attempts|)), k, pause);
        assert 0 <= k * pause;
      } else {
        assert LeadingRejections(w.attempts) == 0;
        assert ElapsedSum(w.attempts, 1) == e;
      }
    }
  }

  /**
   * A pass of main's loop first sleeps until `renewal` (when the gap fits a
   * Duration) and then never moves the clock back, so it ends no earlier.
   */
  lemma MainPassClock(cfg: Config, w: World, renewal: Instant)
    ensures var end := MainPass(cfg, w, renewal).w.clock;
      && w.clock <= WakeTime(w.clock, renewal) <= end
      && (InDurationRange(renewal - w.clock) ==> renewal <= end)
  {
    var woken := w.(clock := WakeTime(w.clock, renewal));
    AwaitServerNoEarlier(cfg, woken);
    var gate := AwaitServer(cfg, woken);
    if gate.out.Ok? {
      assert MainPass(cfg, w, renewal) == AuthPass(cfg, gate.w);
      AuthPassClock(cfg, gate.w);
    } else {
      assert MainPass(cfg, w, renewal).w == gate.w;
    }
  }

  /** The server wait never moves the clock back. */
  lemma AwaitServerNoEarlier(cfg: Config, w: World)
    ensures w.clock <= AwaitServer(cfg, w).w.clock
  {
    AwaitServerClock(cfg, w);
    var k, pause := LeadingDnsErrors(w.dns), Max(RetryPause(cfg), 0);
    assert 0 <= k * pause;
  }

  /** A pass of ec2_auth_against_vault_server never moves the clock back. */
  lemma AuthPassClock(cfg: Config, w: World)
    ensures w.clock <= AuthPass(cfg, w).w.clock
  {
    RetryLoginClock(cfg, w);
  }

  /**
   * In agent mode the loop carries on from the renewal time the pass returned,
   * and the next pass ends no earlier than that renewal time.
   */
  lemma AgentSleepsUntilRenewal(cfg: Config, w: World, renewal: Instant)
    requires cfg.agent && MainPass(cfg, w, renewal).out.Ok?
    ensures var p := MainPass(cfg, w, renewal);
      var next := MainPass(cfg, p.w, p.out.value);
      && RunFrom(cfg, w, renewal) == RunFrom(cfg, p.w, p.out.value)
      && p.w.clock <= next.w.clock
      && (InDurationRange(p.out.value - p.w.clock) ==> p.out.value <= next.w.clock)
  {
    var p := MainPass(cfg, w, renewal);
    MainPassClock(cfg, p.w, p.out.value);
  }

  /** main's first pass begins with the renewal time equal to the clock, so it does not sleep. */
  lemma FirstPassDoesNotWait(cfg: Config, w: World)
    ensures var gate := AwaitServer(cfg, w);
      MainPass(cfg, w, w.clock) == if gate.out.Stop? then Step(Stop(gate.out.halt), gate.w) else AuthPass(cfg, gate.w)
  {
    assert WakeTime(w.clock, w.clock) == w.clock;
    assert w.(clock := w.clock) == w;
  }

  /**
   * Out of agent mode a normal exit follows exactly one pass, which starts
   * without sleeping and uses up one pair of file writes.
   */
  lemma SingleShotIsOnePass(cfg: Config, w: World)
    requires !cfg.agent
    ensures var r := Lifetime(cfg, w);
      var gate := AwaitServer(cfg, w);
      r.out.Ok? ==> gate.out.Ok? && r == AuthPass(cfg, gate.w) && |r.w.writes| == |w.writes| - 1
  {
    assert WakeTime(w.clock, w.clock) == w.clock;
    assert w.(clock := w.clock) == w;
    AuthPassPersistsOneReply(cfg, AwaitServer(cfg, w).w);
  }
}
