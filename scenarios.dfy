/**
 * End-to-end runs on concrete scripts: a first login, a re-login with a stored
 * nonce, three rejections before success, and agent mode looping back to sleep.
 */
module Scenarios {
  import opened Wrappers
  import opened Clock
  import opened Login
  import opened Agent

  function ServiceConfig(agent: bool): (cfg: Config) {
    Config("https://vault.service.consul:8200", "aws-ec2", "svc-a", agent, 30)
  }

  /** A 2xx reply granting token T1, nonce N1 and an hour-long lease, arriving at once. */
  function Granted(proof: string): (a: Attempt) {
    Attempt(Some(proof), Reply(200, "", Some(LoginResponse(3600, "T1", "N1"))), 0)
  }

  function RoleNotFound(proof: string): (a: Attempt) {
    Attempt(Some(proof), Reply(400, "role not found", None), 0)
  }

  function Start(nonce: File, attempts: seq<Attempt>): (w: World) {
    World(0, Absent, nonce, [Resolved], attempts, [Persisting(Wrote(0), Wrote(0))], [])
  }

  /** The service's login endpoint. */
  lemma ServiceLoginUrl(agent: bool)
    ensures LoginUrl(ServiceConfig(agent)) == "https://vault.service.consul:8200/v1/auth/aws-ec2/login"
  {
  }

  /** No nonce file: the request has no nonce field, the files get T1/N1 and the next wake is half an hour on. */
  lemma FirstLogin()
    ensures var cfg := ServiceConfig(false);
      var r := Lifetime(cfg, Start(Absent, [Granted("PROOF1")]));
      && r.out == Ok(1800 * Second)
      && r.w.token == Present("T1", true) && r.w.nonce == Present("N1", true)
      && r.w.posts == [Post(LoginUrl(cfg), LoginRequest("svc-a", "PROOF1", None))]
      && Fields(r.w.posts[0].request) == [("role", "svc-a"), ("pkcs7", "PROOF1")]
  {
    var cfg := ServiceConfig(false);
    var w := Start(Absent, [Granted("PROOF1")]);
    var gate := AwaitServer(cfg, w);
    assert gate == Step(Ok(()), w.(dns := []));
    assert WakeTime(0, 0) == 0;
    assert MainPass(cfg, w, 0) == AuthPass(cfg, gate.w);
    var a := Ec2Auth(cfg, Absent, Granted("PROOF1"), 0);
    assert a.outcome == Returned(3600 * Second, "T1", "N1", None);
    var login := RetryLogin(cfg, gate.w);
    assert login.out == Ok(Credentials(3600 * Second, "T1", "N1"));
    var saved := Persist(login.w, login.out.value);
    assert saved.out == Ok(()) && saved.w.clock == 0;
    assert Midpoint(0, 3600 * Second) == 1800 * Second;
    assert BuildRequest(cfg, "PROOF1", Absent) == LoginRequest("svc-a", "PROOF1", None);
    assert Lifetime(cfg, w) == MainPass(cfg, w, 0);
  }

  /** A stored nonce N1: the login is a re-login carrying exactly that nonce, and the files are rewritten. */
  lemma ReLogin()
    ensures var cfg := ServiceConfig(false);
      var r := Lifetime(cfg, Start(Present("N1", true), [Granted("PROOF2")]));
      && r.out == Ok(1800 * Second)
      && r.w.token == Present("T1", true) && r.w.nonce == Present("N1", true)
      && |r.w.posts| == 1
      && Fields(r.w.posts[0].request) == [("role", "svc-a"), ("pkcs7", "PROOF2"), ("nonce", "N1")]
  {
    var cfg := ServiceConfig(false);
    var w := Start(Present("N1", true), [Granted("PROOF2")]);
    var gate := AwaitServer(cfg, w);
    assert gate == Step(Ok(()), w.(dns := []));
    assert WakeTime(0, 0) == 0;
    assert MainPass(cfg, w, 0) == AuthPass(cfg, gate.w);
    var login := RetryLogin(cfg, gate.w);
    assert login.out == Ok(Credentials(3600 * Second, "T1", "N1"));
    assert login.w.posts == [Post(LoginUrl(cfg), BuildRequest(cfg, "PROOF2", Present("N1", true)))];
    assert BuildRequest(cfg, "PROOF2", Present("N1", true)) == LoginRequest("svc-a", "PROOF2", Some("N1"));
    var saved := Persist(login.w, login.out.value);
    assert saved.out == Ok(()) && saved.w.clock == 0;
    assert Midpoint(0, 3600 * Second) == 1800 * Second;
    assert Lifetime(cfg, w) == MainPass(cfg, w, 0);
  }

  /**
   * Three 400 replies and then success: three POSTs without effect and three
   * retry pauses of 30 seconds before the files are written.
   */
  lemma RetriedThreeTimes()
    ensures var cfg := ServiceConfig(false);
      var w := Start(Absent, [RoleNotFound("P"), RoleNotFound("P"), RoleNotFound("P"), Granted("P")]);
      var r := Lifetime(cfg, w);
      && r.out == Ok(90 * Second + 1800 * Second)
      && r.w.token == Present("T1", true) && r.w.nonce == Present("N1", true)
      && |r.w.posts| == 4
  {
    var cfg := ServiceConfig(false);
    var w := Start(Absent, [RoleNotFound("P"), RoleNotFound("P"), RoleNotFound("P"), Granted("P")]);
    var gate := AwaitServer(cfg, w);
    assert gate == Step(Ok(()), w.(dns := []));
    assert WakeTime(0, 0) == 0;
    assert MainPass(cfg, w, 0) == AuthPass(cfg, gate.w);
    assert RetryPause(cfg) == 30 * Second;
    var w0 := gate.w;
    var w1 := w0.(attempts := w0.attempts[1..], clock := 30 * Second, posts := w0.posts + [Post(LoginUrl(cfg), BuildRequest(cfg, "P", Absent))]);
    assert RetryLogin(cfg, w0) == RetryLogin(cfg, w1);
    var w2 := w1.(attempts := w1.attempts[1..], clock := 60 * Second, posts := w1.posts + [Post(LoginUrl(cfg), BuildRequest(cfg, "P", Absent))]);
    assert RetryLogin(cfg, w1) == RetryLogin(cfg, w2);
    var w3 := w2.(attempts := w2.attempts[1..], clock := 90 * Second, posts := w2.posts + [Post(LoginUrl(cfg), BuildRequest(cfg, "P", Absent))]);
    assert RetryLogin(cfg, w2) == RetryLogin(cfg, w3);
    var login := RetryLogin(cfg, w3);
    assert login.out == Ok(Credentials(90 * Second + 3600 * Second, "T1", "N1"));
    assert |login.w.posts| == 4;
    var saved := Persist(login.w, login.out.value);
    assert saved.out == Ok(()) && saved.w.clock == 90 * Second;
    assert Midpoint(90 * Second, 90 * Second + 3600 * Second) == 90 * Second + 1800 * Second;
  }

  /** In agent mode the loop goes back to sleep until the midpoint the first pass returned. */
  lemma AgentLoopsBack()
    ensures var r := Lifetime(ServiceConfig(true), Start(Absent, [Granted("PROOF1")]));
      && r.out == Stop(Exhausted)
      && r.w.clock == 1800 * Second
      && r.w.token == Present("T1", true) && r.w.nonce == Present("N1", true)
  {
    var cfg := ServiceConfig(true);
    var w := Start(Absent, [Granted("PROOF1")]);
    var gate := AwaitServer(cfg, w);
    assert gate == Step(Ok(()), w.(dns := []));
    var login := RetryLogin(cfg, gate.w);
    assert login.out == Ok(Credentials(3600 * Second, "T1", "N1"));
    var pass := MainPass(cfg, w, 0);
    assert pass.out == Ok(1800 * Second);
    assert RunFrom(cfg, w, 0) == RunFrom(cfg, pass.w, 1800 * Second);
  }
}
