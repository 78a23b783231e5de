/** The bounded status loop of `CloudBuildVerifier.verify` (cloudbuild_verifier.py), against a clock it only reads.
    Durations are real seconds; a call that is given `t` seconds ends within `t` seconds, and sleeps are exact. */
module PollLoop {
  import opened Wrappers
  import opened Candidates
  import opened Verification

  datatype Config = Config(
    buildTimeout: real, queueTtl: real, overallTimeout: real, rpcTimeout: real, pollInterval: real)
  {
    /** The bounds `__post_init__` enforces. */
    predicate Valid() {
      && 60.0 <= buildTimeout <= 900.0 && 10.0 <= queueTtl <= 600.0
      && buildTimeout <= overallTimeout <= 1200.0
      && 1.0 <= rpcTimeout <= 60.0 && 0.05 <= pollInterval <= 30.0
    }

    /** Submission, polling with its overrun, and one cancel attempt: the least upper bound of a verification. */
    function WorstCase(): real {
      rpcTimeout + (overallTimeout + Min(rpcTimeout, pollInterval)) + rpcTimeout
    }
  }

  const DEFAULTS := Config(600.0, 120.0, 750.0, 15.0, 2.0)
  const RUN_LEASE_SECONDS := 1200.0

  /** How one call goes: how long it would take, and what it would give. */
  datatype Call<T> = Answer(seconds: real, value: T) | Raise(seconds: real)

  datatype PollResult =
    | Interpreted(outcome: Outcome) | PollFailure(last: Option<BuildSnapshot>) | TimedOut(last': Option<BuildSnapshot>)

  function Min(a: real, b: real): real {
    if a <= b then a else b
  }

  type Schedule = f: nat -> Call<BuildSnapshot> | forall i :: f(i).seconds >= 0.0
    witness (_: nat) => Raise(0.0)

  predicate Unfinished(c: Call<BuildSnapshot>) {
    c.Answer? && !IsTerminal(c.value.status)
  }

  ghost predicate AllUnfinished(answers: Schedule, n: nat) {
    forall i :: 0 <= i < n ==> Unfinished(answers(i))
  }

  /** The time that `n` full poll intervals take. */
  function Spacing(n: nat, p: real): real {
    n as real * p
  }

  function ReadLimit(cfg: Config): int
    requires cfg.Valid()
  {
    (cfg.overallTimeout / cfg.pollInterval).Floor + 1
  }

  /** The loop's clock: the first `n` reads took a whole interval each, or the deadline has passed. */
  predicate Live(cfg: Config, n: nat, now: real) {
    && (Spacing(n, cfg.pollInterval) <= now || now >= cfg.overallTimeout)
    && 0.0 <= now < cfg.overallTimeout + Min(cfg.rpcTimeout, cfg.pollInterval)
  }

  /** When polling stops, and whether on the deadline path. */
  datatype Stop = Stop(at: real, timedOut: bool)

  /** The loop from its `n`-th status read on, at time `now`. */
  function PollStop(cfg: Config, answers: Schedule, n: nat, now: real): (stop: Stop)
    requires cfg.Valid() && Live(cfg, n, now)
    ensures now <= stop.at < cfg.overallTimeout + Min(cfg.rpcTimeout, cfg.pollInterval)
    decreases ReadLimit(cfg) - n
  {
    if now >= cfg.overallTimeout then Stop(now, true)
    else
      var remaining := cfg.overallTimeout - now;
      var timeout := Min(cfg.rpcTimeout, remaining);
      if answers(n).seconds >= timeout then Stop(now + timeout, true)
      else if !Unfinished(answers(n)) then Stop(now + answers(n).seconds, false)
      else
        ReadsBounded(n, cfg);
        NextRead(n + 1, cfg.pollInterval);
        PollStop(cfg, answers, n + 1, now + answers(n).seconds + Min(cfg.pollInterval, remaining))
  }

  lemma PastDeadline(cfg: Config, answers: Schedule, n: nat, now: real)
    requires cfg.Valid() && Live(cfg, n, now) && cfg.overallTimeout <= now
    ensures PollStop(cfg, answers, n, now) == Stop(now, true)
  {
  }

  /** One status read decides: the deadline path, an end, or the next read. */
  lemma ReadDecides(cfg: Config, answers: Schedule, n: nat, now: real)
    requires cfg.Valid() && Live(cfg, n, now) && now < cfg.overallTimeout
    ensures n < ReadLimit(cfg) && Spacing(n, cfg.pollInterval) < cfg.overallTimeout
    ensures var timeout := Min(cfg.rpcTimeout, cfg.overallTimeout - now);
            var call := answers(n);
            var next := now + call.seconds + Min(cfg.pollInterval, cfg.overallTimeout - now);
            if call.seconds >= timeout then PollStop(cfg, answers, n, now) == Stop(now + timeout, true)
            else if !Unfinished(call) then PollStop(cfg, answers, n, now) == Stop(now + call.seconds, false)
            else
              && Live(cfg, n + 1, next)
              && PollStop(cfg, answers, n, now) == PollStop(cfg, answers, n + 1, next)
  {
    ReadsBounded(n, cfg);
    NextRead(n + 1, cfg.pollInterval);
    hide Spacing, ReadLimit, Unfinished;
  }

  /** The status loop. `n` is the number of status reads, `elapsed` the time until it stops polling. */
  method Poll(cfg: Config, artifact: Artifact, submission: BuildSubmission, answers: Schedule)
    returns (result: PollResult, n: nat, elapsed: real)
    requires cfg.Valid()
    ensures n >= 1 && Spacing(n - 1, cfg.pollInterval) < cfg.overallTimeout
    ensures Stop(elapsed, result.TimedOut?) == PollStop(cfg, answers, 0, 0.0)
    ensures result.Interpreted? ==>
      && elapsed <= cfg.overallTimeout
      && AllUnfinished(answers, n - 1) && answers(n - 1).Answer? && IsTerminal(answers(n - 1).value.status)
      && result.outcome == Interpret(PUBLIC_REPOSITORY_URL, artifact, submission, answers(n - 1).value)
    ensures result.PollFailure? ==> AllUnfinished(answers, n - 1) && answers(n - 1).Raise?
    ensures result.TimedOut? ==>
      || (AllUnfinished(answers, n) && elapsed >= cfg.overallTimeout)
      || (AllUnfinished(answers, n - 1) && answers(n - 1).seconds >= Min(cfg.rpcTimeout, cfg.overallTimeout - elapsed))
  {
    var now := 0.0;
    var last: Option<BuildSnapshot> := None;
    n := 0;
    FirstRead(cfg.pollInterval);
    assert cfg.rpcTimeout > 0.0 && cfg.pollInterval > 0.0 && cfg.overallTimeout > 0.0;
    hide Live, Spacing, ReadLimit, PollStop, Interpret, IsTerminal;
    while true
      invariant Live(cfg, n, now)
      invariant n > 0 ==> Spacing(n - 1, cfg.pollInterval) < cfg.overallTimeout
      invariant n == 0 ==> now == 0.0
      invariant AllUnfinished(answers, n)
      invariant PollStop(cfg, answers, n, now) == PollStop(cfg, answers, 0, 0.0)
      decreases ReadLimit(cfg) - n
    {
      var remaining := cfg.overallTimeout - now;
      if remaining <= 0.0 {
        PastDeadline(cfg, answers, n, now);
        return TimedOut(last), n, now;
      }
      ReadDecides(cfg, answers, n, now);
      var timeout := Min(cfg.rpcTimeout, remaining);
      var call := answers(n);
      n := n + 1;
      if call.seconds >= timeout {
        return TimedOut(last), n, now + timeout;
      }
      now := now + call.seconds;
      if call.Raise? {
        return PollFailure(last), n, now;
      }
      last := Some(call.value);
      if IsTerminal(call.value.status) {
        return Interpreted(Interpret(PUBLIC_REPOSITORY_URL, artifact, submission, call.value)), n, now;
      }
      now := now + Min(cfg.pollInterval, remaining);
    }
  }

  /** A read that starts before the deadline is among the first `floor(T/p) + 1`. */
  lemma ReadsBounded(n: nat, cfg: Config)
    requires cfg.Valid() && Spacing(n, cfg.pollInterval) < cfg.overallTimeout
    ensures n < ReadLimit(cfg)
  {
    var p, t := cfg.pollInterval, cfg.overallTimeout;
    assert n as real * p / p < t / p by {
      Divides(n as real * p, t, p);
    }
    assert n as real * p / p == n as real;
  }

  lemma Divides(a: real, b: real, p: real)
    requires p > 0.0 && a < b
    ensures a / p < b / p
  {
  }

  lemma FirstRead(p: real)
    ensures Spacing(0, p) == 0.0
  {
  }

  lemma NextRead(n: nat, p: real)
    requires n >= 1
    ensures Spacing(n, p) == Spacing(n - 1, p) + p
  {
  }

  datatype VerifyResult = SubmissionFailure | Polled(poll: PollResult)

  /** The time a whole verification takes. */
  function TotalTime(cfg: Config, submit: Call<BuildSubmission>, answers: Schedule, cancel: Call<bool>): real
    requires cfg.Valid()
  {
    FirstRead(cfg.pollInterval);
    if submit.seconds >= cfg.rpcTimeout then cfg.rpcTimeout
    else if submit.Raise? then submit.seconds
    else
      var stop := PollStop(cfg, answers, 0, 0.0);
      submit.seconds + stop.at + if stop.timedOut then Min(cancel.seconds, cfg.rpcTimeout) else 0.0
  }

  /** `verify`: submit, poll, and on the deadline path one cancel attempt whose own outcome is ignored. */
  method Verify(
    cfg: Config, artifact: Artifact, submit: Call<BuildSubmission>, answers: Schedule, cancel: Call<bool>)
    returns (result: VerifyResult, n: nat, cancels: nat, total: real)
    requires cfg.Valid() && submit.seconds >= 0.0 && cancel.seconds >= 0.0
    ensures (result.SubmissionFailure? <==> submit.Raise? || submit.seconds >= cfg.rpcTimeout)
    ensures n > 0 ==> Spacing(n - 1, cfg.pollInterval) < cfg.overallTimeout
    ensures cancels == if result.Polled? && result.poll.TimedOut? then 1 else 0
    ensures total == TotalTime(cfg, submit, answers, cancel) < cfg.WorstCase()
  {
    n, cancels := 0, 0;
    if submit.seconds >= cfg.rpcTimeout {
      return SubmissionFailure, 0, 0, cfg.rpcTimeout;
    }
    if submit.Raise? {
      return SubmissionFailure, 0, 0, submit.seconds;
    }
    var poll, polls, elapsed := Poll(cfg, artifact, submit.value, answers);
    total := submit.seconds + elapsed;
    if poll.TimedOut? {
      cancels := 1;
      total := total + Min(cancel.seconds, cfg.rpcTimeout);
    }
    return Polled(poll), polls, cancels, total;
  }

  /** At most `ceil(T/p)` status reads: 375 with default settings. */
  lemma ReadCount(n: nat, cfg: Config)
    requires cfg.Valid() && n >= 1 && Spacing(n - 1, cfg.pollInterval) < cfg.overallTimeout
    ensures (n - 1) as real < cfg.overallTimeout / cfg.pollInterval
    ensures cfg == DEFAULTS ==> n <= 375
  {
    Divides(Spacing(n - 1, cfg.pollInterval), cfg.overallTimeout, cfg.pollInterval);
  }

  // ----- Whether every verification ends within the run lease.

  lemma BelowWorstCase(cfg: Config, submit: Call<BuildSubmission>, answers: Schedule, cancel: Call<bool>)
    requires cfg.Valid() && submit.seconds >= 0.0 && cancel.seconds >= 0.0
    ensures TotalTime(cfg, submit, answers, cancel) < cfg.WorstCase()
  {
  }

  const RUNNING := BuildSnapshot("build", "build", Pending("WORKING"), None, None, None, [])

  /** `n` status reads of `d` seconds, then reads of `last` seconds; the build never finishes. */
  function SlowReads(n: nat, d: real, last: real): Schedule
    requires d >= 0.0 && last >= 0.0
  {
    (i: nat) => Answer(if i < n then d else last, RUNNING)
  }

  lemma SpacingGrows(i: nat, j: nat, p: real)
    requires i <= j && p >= 0.0
    ensures Spacing(i, p) <= Spacing(j, p)
  {
  }

  lemma SpacingWider(n: nat, p: real, q: real)
    requires p <= q
    ensures Spacing(n, p) <= Spacing(n, q)
  {
  }

  /** While the read and a full interval after it still fit, polling just goes on. */
  lemma ReadTakesItsTurn(cfg: Config, answers: Schedule, n: nat, now: real)
    requires cfg.Valid() && 0.0 <= now && Spacing(n, cfg.pollInterval) <= now
    requires Unfinished(answers(n)) && answers(n).seconds < cfg.rpcTimeout
    requires now + answers(n).seconds + cfg.pollInterval < cfg.overallTimeout
    ensures Spacing(n + 1, cfg.pollInterval) <= now + answers(n).seconds + cfg.pollInterval
    ensures PollStop(cfg, answers, n, now)
            == PollStop(cfg, answers, n + 1, now + answers(n).seconds + cfg.pollInterval)
  {
    ReadDecides(cfg, answers, n, now);
    NextRead(n + 1, cfg.pollInterval);
    hide Spacing, PollStop;
  }

  /** The first `n` reads take `d` seconds each and leave the build unfinished. */
  ghost predicate Slow(answers: Schedule, n: nat, d: real) {
    forall i :: 0 <= i < n ==> Unfinished(answers(i)) && answers(i).seconds == d
  }

  /** Slow reads take their turns one after the other; `q` is one read with its interval. */
  lemma {:induction false} Steady(cfg: Config, answers: Schedule, n: nat, q: real, i: nat)
    requires cfg.Valid() && cfg.pollInterval <= q < cfg.pollInterval + cfg.rpcTimeout && i <= n
    requires Slow(answers, n, q - cfg.pollInterval) && Spacing(n, q) < cfg.overallTimeout
    ensures Spacing(i, cfg.pollInterval) <= Spacing(i, q) <= Spacing(n, q) && Spacing(i, q) >= 0.0
    ensures Spacing(n, cfg.pollInterval) <= Spacing(n, q)
    ensures PollStop(cfg, answers, i, Spacing(i, q)) == PollStop(cfg, answers, n, Spacing(n, q))
    decreases n - i
  {
    hide Spacing, PollStop, Unfinished;
    FirstRead(q);
    SpacingWider(i, cfg.pollInterval, q);
    SpacingWider(n, cfg.pollInterval, q);
    SpacingGrows(i, n, q);
    SpacingGrows(0, i, q);
    if i < n {
      SpacingGrows(i + 1, n, q);
      NextRead(i + 1, q);
      ReadTakesItsTurn(cfg, answers, i, Spacing(i, q));
      Steady(cfg, answers, n, q, i + 1);
    }
  }

  /** Reads of equal length can be placed so that the last one starts with neither a whole read nor a whole interval
      more than the other left. */
  lemma Placement(cfg: Config) returns (n: nat, d: real)
    requires cfg.Valid()
    ensures 0.0 <= d < cfg.rpcTimeout
    ensures var left := cfg.overallTimeout - Spacing(n, d + cfg.pollInterval);
            (cfg.rpcTimeout <= left <= cfg.pollInterval) || (cfg.pollInterval <= left <= cfg.rpcTimeout)
  {
    var r, p, t := cfg.rpcTimeout, cfg.pollInterval, cfg.overallTimeout;
    var low, high := if r <= p then r else p, if r <= p then p else r;
    n := ((t - low) / p).Floor;
    FloorSpacing(n, p, t - low);
    if Spacing(n, p) >= t - high {
      d := 0.0;
    } else {
      d := (t - high - Spacing(n, p)) / n as real;
      Spread(n, p, t - high);
    }
  }

  lemma FloorSpacing(n: nat, p: real, t: real)
    requires p > 0.0 && t >= p && n == (t / p).Floor
    ensures n >= 1 && t - p < Spacing(n, p) <= t
  {
    assert t / p * p == t;
    assert t / p >= 1.0;
    assert n as real <= t / p < n as real + 1.0;
    Scales(n as real, t / p, p);
    Scales(t / p, n as real + 1.0, p);
  }

  lemma Scales(a: real, b: real, p: real)
    requires p > 0.0 && a <= b
    ensures a * p <= b * p && (a < b ==> a * p < b * p)
  {
  }

  lemma Spread(n: nat, p: real, t: real)
    requires n >= 1 && Spacing(n, p) <= t
    ensures var d := (t - Spacing(n, p)) / n as real;
            0.0 <= d <= t - Spacing(n, p) && Spacing(n, d + p) == t
  {
    var gap := t - Spacing(n, p);
    var d := gap / n as real;
    assert d * n as real == gap;
  }

  /** The worst case is not reached, but every time below it is exceeded by some verification. */
  lemma WorstCaseApproached(cfg: Config, bound: real)
    returns (submit: Call<BuildSubmission>, answers: Schedule, cancel: Call<bool>)
    requires cfg.Valid() && bound < cfg.WorstCase()
    ensures submit.seconds >= 0.0 && cancel.seconds >= 0.0
    ensures TotalTime(cfg, submit, answers, cancel) > bound
  {
    var r, p, t := cfg.rpcTimeout, cfg.pollInterval, cfg.overallTimeout;
    var slack := Min((cfg.WorstCase() - bound) / 3.0, Min(r, p) / 2.0);
    var n, d := Placement(cfg);
    var left := t - Spacing(n, d + p);
    var last := Min(r, left) - slack;
    submit, cancel := Answer(r - slack, BuildSubmission("build", "build")), Answer(r, true);
    answers := SlowReads(n, d, last);
    LastReadOverruns(cfg, n, d, last, slack);
    hide Spacing, PollStop;
    assert PollStop(cfg, answers, 0, 0.0) == Stop(t + Min(r, p) - slack, true);
  }

  lemma LastReadOverruns(cfg: Config, n: nat, d: real, last: real, slack: real)
    requires cfg.Valid() && 0.0 <= d < cfg.rpcTimeout && 0.0 < slack <= Min(cfg.rpcTimeout, cfg.pollInterval) / 2.0
    requires var left := cfg.overallTimeout - Spacing(n, d + cfg.pollInterval);
             && ((cfg.rpcTimeout <= left <= cfg.pollInterval) || (cfg.pollInterval <= left <= cfg.rpcTimeout))
             && last == Min(cfg.rpcTimeout, left) - slack
    ensures last >= 0.0
    ensures Spacing(0, cfg.pollInterval) == 0.0
    ensures PollStop(cfg, SlowReads(n, d, last), 0, 0.0)
            == Stop(cfg.overallTimeout + Min(cfg.rpcTimeout, cfg.pollInterval) - slack, true)
  {
    FirstRead(cfg.pollInterval);
    FirstRead(d + cfg.pollInterval);
    Steady(cfg, SlowReads(n, d, last), n, d + cfg.pollInterval, 0);
    NextRead(n + 1, cfg.pollInterval);
    ReadsBounded(n, cfg);
    hide Spacing;
  }

  /** Every verification, whatever the build service does, ends within the run lease if and only if the settings keep
      their worst case within it. */
  lemma FitsTheLeaseExactly(cfg: Config)
    requires cfg.Valid()
    ensures (forall submit: Call<BuildSubmission>, answers: Schedule, cancel: Call<bool> ::
               submit.seconds >= 0.0 && cancel.seconds >= 0.0 ==>
                 TotalTime(cfg, submit, answers, cancel) <= RUN_LEASE_SECONDS)
            <==> 2.0 * cfg.rpcTimeout + cfg.overallTimeout + Min(cfg.rpcTimeout, cfg.pollInterval) <= RUN_LEASE_SECONDS
  {
    if cfg.WorstCase() <= RUN_LEASE_SECONDS {
      forall submit: Call<BuildSubmission>, answers: Schedule, cancel: Call<bool> |
        submit.seconds >= 0.0 && cancel.seconds >= 0.0
        ensures TotalTime(cfg, submit, answers, cancel) <= RUN_LEASE_SECONDS
      {
        BelowWorstCase(cfg, submit, answers, cancel);
      }
    } else {
      var submit, answers, cancel := WorstCaseApproached(cfg, RUN_LEASE_SECONDS);
    }
  }

  /** With default settings the whole verification ends within 782 seconds, inside the run lease. */
  lemma DefaultsFitTheLease(submit: Call<BuildSubmission>, answers: Schedule, cancel: Call<bool>)
    requires submit.seconds >= 0.0 && cancel.seconds >= 0.0
    ensures DEFAULTS.Valid() && TotalTime(DEFAULTS, submit, answers, cancel) < 782.0 < RUN_LEASE_SECONDS
  {
    BelowWorstCase(DEFAULTS, submit, answers, cancel);
  }
}
