# vault-ec2auth, modelled in Dafny

vault-ec2auth is a small agent for EC2 instances (one file, `main.go`). It logs
in to a HashiCorp Vault server with the instance's signed identity document
(PKCS#7) and writes the Vault token it gets back, plus the login nonce, to two
files. In agent mode it then sleeps until halfway through the lease, logs in
again (a re-login carrying the stored nonce), and repeats this forever.

This project models the decision core of that program over integer
nanoseconds and scripted outside answers:

- `clock.dfy` (`Clock`): Go's time arithmetic as the agent uses it:
  - `Time.Sub` saturates at the int64 bounds;
  - `Duration * n` wraps modulo 2^64;
  - `Duration / 2` truncates toward zero;
  - `time.Sleep` of a non-positive duration returns at once;
  - the lease end is an int32 number of seconds after the reply;
  - `get_datetime_midpoint` is built from these.
- `login.dfy` (`Login`): one call of `vault_ec2_auth`:
  - the `get_nonce` presence rule;
  - the choice between the login and the re-login request;
  - the 2xx status test;
  - what the call returns, or the fatal exit it takes instead.
- `agent.dfy` (`Agent`): the loops of `wait_for_active_vault_server`,
  `ec2_auth_against_vault_server`, `wait_until_lease_is_expired` and `main`,
  written twice:
  - as functions on a `World` value (the clock, the two files, the outside
    world's remaining answers, and the log of POSTs sent);
  - as the class `Agent.Process`, whose fields the methods update in `while`
    loops. Each method is proved equal to its function.
- `properties.dfy` (`Properties`): lemmas about the midpoint, the retry
  loops, what the files hold after a pass and after any number of passes, and
  how the main loop ends.
- `scenarios.dfy` (`Scenarios`): whole runs with concrete answers:
  - a first login;
  - a re-login with a stored nonce;
  - three `400` replies before success;
  - agent mode going back to sleep until the renewal time.
- `wrappers.dfy`: `Option`.

The outside world is a finite script held in the `World` value:
- what each DNS lookup answers;
- what each login attempt meets: the identity document or its failure, the
  POST's reply and the time it took;
- how each pair of file writes ends.

When the script runs out, the model stops with `Exhausted`. If the DNS or
login-attempt script ran out, the real process would still be waiting or
retrying at that point. If the write script ran out, it would be in the middle
of `ioutil.WriteFile` (main.go:188, 191).

The model follows the code as written; in particular:

- A failed fetch of the identity document is fatal. Its `Body` is
  dereferenced before the error is checked (main.go:263-264), and the error
  goes to `check` (main.go:205).
- A POST transport error is fatal (main.go:229), not retried.
- An undecodable 2xx body is fatal (main.go:243), not retried.
- Every `*net.DNSError` makes the agent wait and look up again, not only
  "host not found" (main.go:155).
- After the token write fails, the nonce write is not attempted
  (main.go:188-191).
- The renewal midpoint is taken from the clock after both writes
  (main.go:194), not from the time of the reply.
- A nonce file that exists and is not empty, but cannot be read, still
  counts as a stored nonce. The nonce sent is then empty, because the read
  error is ignored (main.go:253).

## Model

| member | source | states |
|---|---|---|
| Clock.Wrap64 | main.go:182 | the result agrees with the exact product modulo 2^64 and is the product itself when it fits an int64 Duration |
| Clock.SecondsToDuration | main.go:157 | `time.Second * time.Duration(n)` is n·10^9 when that fits, and otherwise agrees with it modulo 2^64 |
| Clock.Sub | main.go:272-274 | `Time.Sub` is the exact difference, or MaxDuration / MinDuration when the difference overflows in that direction |
| Clock.Half | main.go:272-274 | Duration / 2 truncates toward zero: 2h ≤ d ≤ 2h+1 for d ≥ 0 and 2h−1 ≤ d ≤ 2h for d < 0 |
| Clock.Midpoint | main.go:270-276 | `get_datetime_midpoint` lies between the smaller and the larger of its arguments |
| Clock.LeaseEnd | main.go:245 | the lease ends exactly seconds·10^9 ns after the reply, and that offset never overflows a Duration for an int32 lease |
| Clock.AfterSleep | main.go:169 | `time.Sleep` never moves the clock back, advances it by d exactly when d > 0, and leaves it unchanged otherwise |
| Clock.WakeTime | main.go:167-170 | `wait_until_lease_is_expired` never moves the clock back and, when the gap fits a Duration, wakes at the later of now and the renewal time |
| Login.GetNonce | main.go:250-259 | a nonce is present iff the file exists and is non-empty; it is the file's contents when readable and "" when the read fails |
| Properties.NonceRoundTrip | main.go:250-256 | the nonce a successful login writes (main.go:191) is what the next login sends: a re-login with that nonce, or a first login when it is empty; a file that could not be read still sends "" |
| Properties.RequestNonceField | main.go:207-226 | the marshalled request has a "nonce" key iff the nonce file exists and is non-empty, with the file's contents as its value when readable |
| Login.LoginUrl | main.go:228 | the URL splits back into the server URL, `/v1/auth/`, the mount path and `/login` |
| Login.BuildRequest | main.go:207-226 | the request carries the configured role and the identity document verbatim; it carries a nonce iff the nonce file exists and is non-empty, equal to its contents when readable |
| Properties.FailureStatusMeansRetry | main.go:232-239 | for a fetched document and a reply, the status test fails iff the call returns an error, with empty token and nonce; otherwise a decoded reply gives its own token and nonce |
| Properties.AttemptClassified | main.go:204-243 | every attempt is exactly one of rejected (`Login.Rejects`, non-2xx), accepted (`Login.Accepts`, 2xx with a decoded body), or one of the three fatal kinds |
| Login.Ec2Auth | main.go:203-248 | one POST is sent iff the identity document was fetched, built from the config and nonce file; a 2xx decoded reply yields its lease end, token and nonce with no error; any other status yields the current time, empty strings and an error with the status and body; a failed fetch, POST or decode is fatal with its own cause |
| Agent.RetryPause | main.go:182 | the pause is retryDelay·10^9 ns when that fits a Duration, and congruent to it modulo 2^64 otherwise |
| Agent.AwaitServer | main.go:151-165 | the server wait changes only the clock and the DNS script, and opening the gate uses up at least one answer |
| Agent.RetryLogin | main.go:178-186 | the retry loop touches neither file, nor the DNS or write scripts |
| Agent.Persist | main.go:188-192 | ok iff both writes succeed, and then both files hold the credentials; a failed nonce write leaves the new token and the old nonce; any other stop leaves both files as they were; the clock never goes back |
| Agent.AuthPass | main.go:172-195 | a pass of `ec2_auth_against_vault_server` does not touch the DNS script, and on success both files are written |
| Agent.MainPass | main.go:127-130 | a successful pass of main's loop uses up at least one DNS answer and leaves both files written |
| Agent.RunFrom | main.go:127-136 | a normal exit of main's loop leaves both files written |
| Agent.Lifetime | main.go:124-137 | a normal exit of main leaves both files written |
| Agent.Process.Sleep | main.go:169 | the clock becomes `AfterSleep` of the old clock |
| Agent.Process.WaitUntilLeaseIsExpired | main.go:167-170 | the clock becomes `WakeTime(old clock, renewal)` |
| Agent.Process.WaitForActiveVaultServer | main.go:151-165 | the loop's result and new state are those of `AwaitServer` on the old state |
| Agent.Process.RetryUntilAuthenticated | main.go:178-186 | the loop's result and new state are those of `RetryLogin` on the old state |
| Agent.Process.PersistCredentials | main.go:188-192 | the result and new state are those of `Persist` on the old state |
| Agent.Process.Ec2AuthAgainstVaultServer | main.go:172-195 | the result and new state are those of `AuthPass` on the old state |
| Agent.Process.Run | main.go:124-137 | `main`'s loop ends with the result and state of `Lifetime` on the start state |
| Properties.MidpointSymmetric | main.go:270-276 | mid(a, b) == mid(b, a) |
| Properties.MidpointOfSame | main.go:270-276 | mid(a, a) == a |
| Properties.MidpointExact | main.go:270-276 | when the gap fits a Duration, mid(a, b) == min + (max − min)/2, and it splits the gap with the later half at most 1 ns longer |
| Properties.MidpointSaturates | main.go:272-274 | when the gap overflows a Duration, the midpoint is min + MaxDuration/2 |
| Properties.RenewalWithinLease | main.go:194 | for a lease obtained at t0 and t0 ≤ t1 ≤ lease end, the renewal is t1 + (end − t1)/2 and lies in [t1, end]; for t1 = t0 it is t0 + L·10^9/2 |
| Properties.RetryPauseExact | main.go:182 | when retryDelay·10^9 fits a Duration, a retry sleeps exactly max(retryDelay, 0) seconds, so a zero or negative delay retries at once |
| Properties.AwaitServerDecided | main.go:151-165 | after k leading DNS errors, the next answer decides: resolved opens the gate, any other error is fatal, none left means exhausted; exactly k+1 answers are used |
| Properties.AwaitServerClock | main.go:155-157 | the wait lasts k retry pauses (none if the pause is not positive) |
| Properties.RetryLoginDecided | main.go:178-186 | after k leading rejections, the next attempt decides: accepted yields the lease end, token and nonce of that one response; a failed fetch, POST or decode is fatal; all rejected means the loop never ends |
| Properties.RetryLoginConsumes | main.go:178-186 | the retry loop uses exactly the rejected attempts and the deciding one |
| Properties.RetryLoginPostCount | main.go:178-186 | the POST log only grows, by at most one per attempt used, and by exactly one per attempt on success |
| Properties.RetryLoginPosts | main.go:207-228 | every POST of the loop is the login URL with the request built from that attempt's document and the nonce file as before the loop |
| Properties.AuthPassPersistsOneReply | main.go:178-191 | after a successful pass the attempts used are some rejections followed by one accepted reply, both files hold that reply's token and nonce, and one pair of writes is used |
| Properties.AuthPassFailureKeepsFiles | main.go:188-192 | a pass that stops leaves both files unchanged, except a failed nonce write, which leaves the accepted token and the old nonce |
| Properties.AuthPassRenewal | main.go:194 | a successful pass returns the midpoint of the clock after the writes and the lease end measured from the reply's arrival |
| Properties.PassConsumesUpToAccepted | main.go:178-186 | when the retry loop succeeds, its credentials come from the first non-rejected attempt and the pass uses no later attempt |
| Properties.AuthPassConsumes | main.go:172-195 | a pass uses attempts only from the front of the script |
| Properties.PassReflects | main.go:188-191 | after a successful pass both files reflect one accepted reply among the attempts it used |
| Properties.MainPassConsistent | main.go:127-130 | one pass of main's loop leaves the files unchanged, reflecting one accepted reply it used, or stopped by a failed nonce write |
| Properties.FilesReflectOneReply | main.go:124-137 | however many passes run, at the end both files are as at start-up or hold the token and nonce of one accepted reply, unless a nonce write failed |
| Properties.AgentNeverExits | main.go:133-135 | in agent mode the loop never exits normally |
| Properties.RetryLoginClock | main.go:178-186 | with k leading rejections, the retry loop ends at the start clock plus the elapsed times of the k+1 attempts it used (all of them if fewer) plus k retry pauses of `time.Second * RetryDelay` (none if not positive), so it never moves the clock back |
| Properties.AwaitServerNoEarlier | main.go:151-165 | the server wait never moves the clock back |
| Properties.AuthPassClock | main.go:172-195 | a pass of `ec2_auth_against_vault_server` never moves the clock back |
| Properties.MainPassClock | main.go:127-130 | a pass first sleeps to the wake time, which is no earlier than now, and ends no earlier than it; when the gap fits a Duration it ends no earlier than the renewal time |
| Properties.AgentSleepsUntilRenewal | main.go:127-136 | in agent mode the loop carries on from the renewal time the pass returned, and the next pass ends no earlier than that renewal time |
| Properties.FirstPassDoesNotWait | main.go:125-128 | the first pass starts with renewal == now and goes straight to the server wait |
| Properties.SingleShotIsOnePass | main.go:125-136 | out of agent mode a normal exit is exactly one pass without a sleep, using one pair of writes |
| Scenarios.FirstLogin | main.go:124-137 | with no nonce file and an hour-long lease granted at once, the request has role and pkcs7 only, the files hold T1/N1 and the renewal is half an hour on |
| Scenarios.ReLogin | main.go:207-217 | with nonce N1 stored, the request carries nonce N1 and the files are rewritten |
| Scenarios.RetriedThreeTimes | main.go:178-186 | three 400 replies then success: four POSTs, 90 s of pauses, and a renewal 30 minutes after the reply |
| Scenarios.AgentLoopsBack | main.go:127-136 | in agent mode the second pass sleeps until the renewal time of the first |

## Left out

- Flag parsing, defaults, the home-directory lookup, the role check and URL parsing in `init` (main.go:97-122). `Config` is an immutable parameter, and the URL is used as the string `%s` formats it to.
- The HTTP client, its TLS settings and its 10-second timeout (main.go:139-149). The GET of the identity document and the login POST (main.go:228, 261-268) are scripted outcomes.
- The `SealStatus` type and the unused `LoginResponse` fields (main.go:47-51, 64-92). Only the lease duration, client token and nonce are kept.
- JSON bytes (main.go:217, 224, 242). A request is a datatype with an optional nonce, and `Login.Fields` gives its fields in order.
- Logging (main.go:132, 156, 181).
- Real sleeping. The model's clock advances by the sleep's duration exactly.
- The time that DNS lookups take is not modelled. The time a login attempt or a file write takes is part of the script.
- Instants are unbounded integers, so the int64 range of Go's `Time.Add` is not modelled.
- File permission bits (0660), partial writes and crashes in the middle of a write (main.go:188, 191).
- The token and nonce paths are two distinct files.
- The body-close `defer`s and the 30-second retry delay default, which is configuration.
- Login.BuildRequest: the nonce equals the file's contents only when the file can be read. A non-empty file that cannot be read sends an empty nonce, because main.go:253 ignores the read error.
- Agent.RetryLogin: when every scripted attempt is rejected, the run stops with `Exhausted`. The real loop would retry forever.
- Agent.AwaitServer: when every scripted answer is a DNS error, the run stops with `Exhausted`. The real loop would wait forever.
