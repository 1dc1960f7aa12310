/**
 The two polling loops: the agent's, on a deferred response, and the Person Server's, on
 an Access Server's pending URL. Both back off exponentially unless told how long to wait.

 Time is in nanoseconds. `elapsed` is what one round of requests and callbacks takes,
 not counting the sleep that follows it.
 */
module Polling {
  import opened Prelude
  import opened Deferral
  import DeferredWire

  /** Nanoseconds. */
  function Milliseconds(n: nat): (r: nat) { n * 1_000_000 }

  function Seconds(n: nat): (r: nat) { n * 1_000_000_000 }

  datatype Reply = Reply(status: nat, retryAfter: Option<nat>)

  /** The replies by round; None stands for a transport error, which ends the loop. */
  datatype Env = Env(start: nat, reply: nat -> Option<Reply>, elapsed: nat -> nat)

  /** Who polls: the agent asks again after 202 and 503, the Person Server only after 503. */
  datatype Poller = AgentPoller | PersonServerPoller

  predicate AsksAgain(poller: Poller, status: nat) {
    status == 503 || (poller.AgentPoller? && status == 202)
  }

  datatype PollEnd = Answered(reply: Reply) | TransportFailed | TimedOut

  function Min(a: nat, b: nat): (r: nat) { if a < b then a else b }

  function RetryDelay(retryAfter: Option<nat>, fallback: nat): (r: nat) {
    if retryAfter.Some? then retryAfter.value * 1000 else fallback
  }

  /** What round `n` was answered, if it was. */
  function StatusAt(env: Env, n: nat): (r: nat) {
    if env.reply(n).Some? then env.reply(n).value.status else 0
  }

  /** When the loop gives up. */
  function Deadline(env: Env, maxSeconds: nat): (r: nat) { env.start + Seconds(maxSeconds) }

  /** The backoff doubles, up to 5 s after a 202 and up to 30 s otherwise. */
  function NextBackoff(status: nat, backoff: nat): (r: nat) {
    Min(backoff * 2, if status == 202 then 5000 else 30000)
  }

  /** The backoff in force at round `n`, in milliseconds. */
  function Backoff(env: Env, n: nat): (r: nat) {
    if n == 0 then 1000
    else NextBackoff(StatusAt(env, n - 1), Backoff(env, n - 1))
  }

  /** How long the loop sleeps after round `n`, in milliseconds. */
  function WaitAfter(env: Env, n: nat): (r: nat) {
    RetryDelay(if env.reply(n).Some? then env.reply(n).value.retryAfter else None, Backoff(env, n))
  }

  /** The time after an exchange and a sleep. */
  function After(now: nat, elapsed: nat, waitMs: nat): (r: nat) {
    now + elapsed + Milliseconds(waitMs)
  }

  /** When round `n` starts, if the loop gets that far. */
  function StartOf(env: Env, n: nat): (r: nat) {
    if n == 0 then env.start
    else After(StartOf(env, n - 1), env.elapsed(n - 1), WaitAfter(env, n - 1))
  }

  /** `Retry-After` is obeyed to the second; without it the backoff is. */
  lemma RetryAfterIsObeyed(env: Env, n: nat, status: nat)
    ensures forall s: nat :: env.reply(n) == Some(Reply(status, Some(s))) ==>
              StartOf(env, n + 1) == StartOf(env, n) + env.elapsed(n) + s * 1_000_000_000
    ensures env.reply(n) == Some(Reply(status, None)) ==>
              StartOf(env, n + 1) == StartOf(env, n) + env.elapsed(n) + Backoff(env, n) * 1_000_000
  {
  }

  /** Each round doubles the backoff, up to 5 s after a 202 and up to 30 s after any other status; it starts at one second. */
  lemma BackoffExactly(env: Env, n: nat)
    ensures Backoff(env, 0) == 1000
    ensures var doubled := 2 * Backoff(env, n);
            Backoff(env, n + 1) == if StatusAt(env, n) == 202 then (if doubled < 5000 then doubled else 5000)
                                   else (if doubled < 30000 then doubled else 30000)
  {
  }

  /** Round `n` started in time and was answered with a status after which the loop goes on. */
  predicate GoesOn(env: Env, deadline: nat, poller: Poller, n: nat) {
    StartOf(env, n) < deadline && env.reply(n).Some? && AsksAgain(poller, env.reply(n).value.status)
  }

  /** Some round does not go on: the loop ends. */
  ghost predicate Ends(env: Env, deadline: nat, poller: Poller) {
    exists n: nat :: !GoesOn(env, deadline, poller, n)
  }

  lemma {:induction false} TimePasses(env: Env, n: nat)
    requires forall i: nat :: env.elapsed(i) + WaitAfter(env, i) >= 1
    ensures StartOf(env, n) >= env.start + n
  {
    if n > 0 {
      TimePasses(env, n - 1);
      assert env.elapsed(n - 1) + WaitAfter(env, n - 1) >= 1;
    }
  }

  /** It does whenever no round is over in no time at all, whatever the replies. */
  lemma MovingClockEnds(env: Env, deadline: nat, poller: Poller)
    requires forall i: nat :: env.elapsed(i) + WaitAfter(env, i) >= 1
    ensures Ends(env, deadline, poller)
  {
    TimePasses(env, deadline);
    assert !GoesOn(env, deadline, poller, deadline);
  }

  /** So were all rounds before round `n`. */
  predicate WentOn(env: Env, deadline: nat, poller: Poller, n: nat) {
    forall i :: 0 <= i < n ==> GoesOn(env, deadline, poller, i)
  }

  /** `gets` rounds were run, and `end` is how the loop ended. */
  predicate Polled(env: Env, deadline: nat, poller: Poller, gets: nat, end: PollEnd) {
    match end
    case TimedOut => WentOn(env, deadline, poller, gets) && StartOf(env, gets) >= deadline
    case Answered(reply) =>
      && gets > 0 && WentOn(env, deadline, poller, gets - 1) && StartOf(env, gets - 1) < deadline
      && env.reply(gets - 1) == Some(reply) && !AsksAgain(poller, reply.status)
    case TransportFailed =>
      gets > 0 && WentOn(env, deadline, poller, gets - 1) && StartOf(env, gets - 1) < deadline && env.reply(gets - 1).None?
  }

  /** The clock, the backoff and the rounds so far, as the loop keeps them; round `last` is one that does not go on. */
  predicate InRound(env: Env, deadline: nat, poller: Poller, last: nat, n: nat, now: nat, backoff: nat) {
    && n <= last && !GoesOn(env, deadline, poller, last)
    && now == StartOf(env, n) && backoff == Backoff(env, n) && WentOn(env, deadline, poller, n)
  }

  /** After a round that goes on, the loop's variables are those of the next round. */
  lemma NextRound(env: Env, deadline: nat, poller: Poller, last: nat, n: nat, now: nat, backoff: nat, reply: Reply)
    requires InRound(env, deadline, poller, last, n, now, backoff) && now < deadline
    requires env.reply(n) == Some(reply) && AsksAgain(poller, reply.status)
    ensures InRound(env, deadline, poller, last, n + 1, After(now, env.elapsed(n), RetryDelay(reply.retryAfter, backoff)),
                    NextBackoff(reply.status, backoff))
  {
    assert GoesOn(env, deadline, poller, n);
  }

  lemma Ended(env: Env, deadline: nat, poller: Poller, last: nat, n: nat, now: nat, backoff: nat, end: PollEnd, gets: nat)
    requires gets == if end.TimedOut? then n else n + 1
    requires InRound(env, deadline, poller, last, n, now, backoff)
    requires match end
             case TimedOut => now >= deadline
             case TransportFailed => now < deadline && env.reply(n).None?
             case Answered(reply) => now < deadline && env.reply(n) == Some(reply) && !AsksAgain(poller, reply.status)
    ensures Polled(env, deadline, poller, gets, end)
  {
  }

  /** The agent's loop: 202 and 503 are asked again. */
  method PollDeferredWith(env: Env, maxSeconds: nat) returns (end: PollEnd, gets: nat)
    requires Ends(env, Deadline(env, maxSeconds), AgentPoller)
    ensures Polled(env, Deadline(env, maxSeconds), AgentPoller, gets, end)
  {
    ghost var last: nat :| !GoesOn(env, Deadline(env, maxSeconds), AgentPoller, last);
    var now: nat := env.start;
    var deadline := Deadline(env, maxSeconds);
    var backoff: nat := 1000;
    gets := 0;
    while now < deadline
      invariant InRound(env, deadline, AgentPoller, last, gets, now, backoff)
      decreases last - gets
    {
      var reply := env.reply(gets);
      if reply.None? {
        Ended(env, deadline, AgentPoller, last, gets, now, backoff, TransportFailed, gets + 1);
        return TransportFailed, gets + 1;
      }
      var status := reply.value.status;
      if status != 202 && status != 503 {
        Ended(env, deadline, AgentPoller, last, gets, now, backoff, Answered(reply.value), gets + 1);
        return Answered(reply.value), gets + 1;
      }
      NextRound(env, deadline, AgentPoller, last, gets, now, backoff, reply.value);
      now := After(now, env.elapsed(gets), RetryDelay(reply.value.retryAfter, backoff));
      backoff := NextBackoff(status, backoff);
      gets := gets + 1;
    }
    Ended(env, deadline, AgentPoller, last, gets, now, backoff, TimedOut, gets);
    end := TimedOut;
  }

  /** The Person Server's loop: only 503 is asked again. */
  method PollAccessServer(env: Env, maxSeconds: nat) returns (end: PollEnd, gets: nat)
    requires Ends(env, Deadline(env, maxSeconds), PersonServerPoller)
    ensures Polled(env, Deadline(env, maxSeconds), PersonServerPoller, gets, end)
  {
    ghost var last: nat :| !GoesOn(env, Deadline(env, maxSeconds), PersonServerPoller, last);
    var now: nat := env.start;
    var deadline := Deadline(env, maxSeconds);
    var backoff: nat := 1000;
    gets := 0;
    while now < deadline
      invariant InRound(env, deadline, PersonServerPoller, last, gets, now, backoff)
      decreases last - gets
    {
      var reply := env.reply(gets);
      if reply.None? {
        Ended(env, deadline, PersonServerPoller, last, gets, now, backoff, TransportFailed, gets + 1);
        return TransportFailed, gets + 1;
      }
      var status := reply.value.status;
      if status != 503 {
        Ended(env, deadline, PersonServerPoller, last, gets, now, backoff, Answered(reply.value), gets + 1);
        return Answered(reply.value), gets + 1;
      }
      NextRound(env, deadline, PersonServerPoller, last, gets, now, backoff, reply.value);
      now := After(now, env.elapsed(gets), RetryDelay(reply.value.retryAfter, backoff));
      backoff := NextBackoff(status, backoff);
      gets := gets + 1;
    }
    Ended(env, deadline, PersonServerPoller, last, gets, now, backoff, TimedOut, gets);
    end := TimedOut;
  }

  // ----- backoff -----

  lemma {:induction false} BackoffInRange(env: Env, n: nat)
    ensures 1000 <= Backoff(env, n) <= 30000
    ensures n > 0 && StatusAt(env, n - 1) == 202 ==> Backoff(env, n) <= 5000
  {
    if n > 0 { BackoffInRange(env, n - 1); }
  }

  function Pow2(n: nat): (r: nat)
    ensures r >= 1
  {
    if n == 0 then 1 else 2 * Pow2(n - 1)
  }

  /** While everything is answered 503, the backoff doubles up to 30 s. */
  lemma {:induction false} BackoffOn503(env: Env, n: nat)
    requires forall i :: 0 <= i < n ==> StatusAt(env, i) == 503
    ensures Backoff(env, n) == Min(1000 * Pow2(n), 30000)
  {
    if n > 0 { BackoffOn503(env, n - 1); }
  }

  // ----- how many requests -----

  /** The reply does not ask to be polled again at once. */
  predicate Patient(reply: Option<Reply>) {
    reply.Some? && reply.value.retryAfter.Some? ==> reply.value.retryAfter.value >= 1
  }

  lemma {:induction false} OnePerSecond(env: Env, n: nat)
    requires forall i :: 0 <= i < n ==> Patient(env.reply(i))
    ensures StartOf(env, n) >= env.start + Seconds(n)
  {
    if n > 0 {
      OnePerSecond(env, n - 1);
      BackoffInRange(env, n - 1);
      assert Patient(env.reply(n - 1));
      assert WaitAfter(env, n - 1) >= 1000;
    }
  }

  lemma LastStart(env: Env, maxSeconds: nat, poller: Poller, gets: nat, end: PollEnd)
    requires Polled(env, Deadline(env, maxSeconds), poller, gets, end) && gets > 0
    ensures StartOf(env, gets - 1) < env.start + Seconds(maxSeconds)
  {
    if end.TimedOut? { assert GoesOn(env, env.start + Seconds(maxSeconds), poller, gets - 1); }
  }

  /** No more requests than seconds, whenever no reply asks for an immediate retry. */
  lemma RequestsBounded(env: Env, maxSeconds: nat, poller: Poller, gets: nat, end: PollEnd)
    requires Polled(env, Deadline(env, maxSeconds), poller, gets, end)
    requires forall i :: 0 <= i < gets - 1 ==> Patient(env.reply(i))
    ensures gets <= maxSeconds
  {
    if gets > 0 {
      OnePerSecond(env, gets - 1);
      LastStart(env, maxSeconds, poller, gets, end);
    }
  }

  // ----- exactly when the bound holds -----

  /** The sleeps after the first `n` rounds together, in milliseconds: they depend on the replies alone. */
  function TotalWait(env: Env, n: nat): (r: nat) {
    if n == 0 then 0 else TotalWait(env, n - 1) + WaitAfter(env, n - 1)
  }

  lemma {:induction false} SameWaits(env: Env, other: Env, n: nat)
    requires env.reply == other.reply
    ensures Backoff(env, n) == Backoff(other, n) && WaitAfter(env, n) == WaitAfter(other, n) && TotalWait(env, n) == TotalWait(other, n)
  {
    if n > 0 { SameWaits(env, other, n - 1); }
  }

  lemma {:induction false} StartsAfterWaits(env: Env, n: nat)
    ensures StartOf(env, n) >= env.start + Milliseconds(TotalWait(env, n))
    ensures (forall i :: 0 <= i < n ==> env.elapsed(i) == 0) ==> StartOf(env, n) == env.start + Milliseconds(TotalWait(env, n))
  {
    if n > 0 { StartsAfterWaits(env, n - 1); }
  }

  /** Round `i` ends the loop, whenever it starts. */
  predicate EndsLoop(poller: Poller, reply: Option<Reply>) {
    reply.None? || !AsksAgain(poller, reply.value.status)
  }

  /** The sleeps of the first rounds fill the time, or one of those rounds ends the loop. */
  ghost predicate KeepsBound(env: Env, poller: Poller, maxSeconds: nat) {
    || TotalWait(env, maxSeconds) >= 1000 * maxSeconds
    || exists i: nat :: i < maxSeconds && EndsLoop(poller, env.reply(i))
  }

  /** No more requests than seconds, however long the exchanges take. */
  ghost predicate AlwaysBounded(env: Env, poller: Poller, maxSeconds: nat) {
    forall elapsed: nat -> nat, gets: nat, end: PollEnd ::
      Polled(env.(elapsed := elapsed), Deadline(env, maxSeconds), poller, gets, end) ==> gets <= maxSeconds
  }

  lemma RoundsBefore(env: Env, deadline: nat, poller: Poller, gets: nat, end: PollEnd, i: nat)
    requires Polled(env, deadline, poller, gets, end) && i + 1 < gets
    ensures GoesOn(env, deadline, poller, i)
  {
  }

  lemma KeptIsBounded(env: Env, poller: Poller, maxSeconds: nat, gets: nat, end: PollEnd)
    requires KeepsBound(env, poller, maxSeconds) && Polled(env, Deadline(env, maxSeconds), poller, gets, end)
    ensures gets <= maxSeconds
  {
    if gets > maxSeconds {
      if i: nat :| i < maxSeconds && EndsLoop(poller, env.reply(i)) {
        RoundsBefore(env, Deadline(env, maxSeconds), poller, gets, end, i);
      } else {
        StartsAfterWaits(env, maxSeconds);
        StartsGrow(env, maxSeconds, gets - 1);
        LastStart(env, maxSeconds, poller, gets, end);
      }
    }
  }

  lemma {:induction false} StartsGrow(env: Env, i: nat, j: nat)
    requires i <= j
    ensures StartOf(env, i) <= StartOf(env, j)
  {
    if i < j { StartsGrow(env, i, j - 1); }
  }

  /** Exchanges that take no time, until one that takes all of it. */
  function RushedAt(maxSeconds: nat, i: nat): (r: nat) {
    if i < maxSeconds then 0 else Seconds(maxSeconds)
  }

  function Rushed(maxSeconds: nat): (r: nat -> nat) {
    (i: nat) => RushedAt(maxSeconds, i)
  }

  lemma RushedEnd(env: Env, poller: Poller, maxSeconds: nat) returns (end: PollEnd)
    requires env.elapsed == Rushed(maxSeconds) && !KeepsBound(env, poller, maxSeconds)
    ensures Polled(env, Deadline(env, maxSeconds), poller, maxSeconds + 1, end)
  {
    var deadline := Deadline(env, maxSeconds);
    StartsAfterWaits(env, maxSeconds);
    assert StartOf(env, maxSeconds) < deadline;
    forall i: nat | i < maxSeconds ensures GoesOn(env, deadline, poller, i) {
      StartsGrow(env, i, maxSeconds);
      assert !EndsLoop(poller, env.reply(i));
    }
    var reply := env.reply(maxSeconds);
    end := if reply.None? then TransportFailed else if AsksAgain(poller, reply.value.status) then TimedOut else Answered(reply.value);
    assert StartOf(env, maxSeconds + 1) >= deadline;
  }

  /** The bound holds however long the exchanges take if and only if the replies alone ensure it. */
  lemma BoundedExactly(env: Env, poller: Poller, maxSeconds: nat)
    ensures AlwaysBounded(env, poller, maxSeconds) <==> KeepsBound(env, poller, maxSeconds)
  {
    if KeepsBound(env, poller, maxSeconds) {
      forall elapsed: nat -> nat, gets: nat, end: PollEnd | Polled(env.(elapsed := elapsed), Deadline(env, maxSeconds), poller, gets, end)
        ensures gets <= maxSeconds
      {
        var other := env.(elapsed := elapsed);
        SameWaits(env, other, maxSeconds);
        KeptIsBounded(other, poller, maxSeconds, gets, end);
      }
    } else {
      var rushed := env.(elapsed := Rushed(maxSeconds));
      SameWaits(env, rushed, maxSeconds);
      var end := RushedEnd(rushed, poller, maxSeconds);
      assert Polled(env.(elapsed := Rushed(maxSeconds)), Deadline(env, maxSeconds), poller, maxSeconds + 1, end);
    }
  }

  predicate Unavailable(reply: Option<Reply>) {
    reply.Some? && reply.value.status == 503 && reply.value.retryAfter.None?
  }

  /** The least time, in milliseconds, that `n` rounds answered 503 take: 1 + 2 + 4 + 8 + 16 s, then 30 s each. */
  function QuietTime(n: nat): (r: nat) {
    if n <= 5 then 1000 * (Pow2(n) - 1) else 31000 + 30000 * (n - 5)
  }

  lemma SmallPowers()
    ensures Pow2(0) == 1 && Pow2(1) == 2 && Pow2(2) == 4 && Pow2(3) == 8 && Pow2(4) == 16 && Pow2(5) == 32
  {
    assert Pow2(2) == 2 * Pow2(1);
    assert Pow2(3) == 2 * Pow2(2);
    assert Pow2(4) == 2 * Pow2(3);
    assert Pow2(5) == 2 * Pow2(4);
  }

  lemma {:induction false} PowGrows(n: nat)
    requires n >= 5
    ensures Pow2(n) >= 32
  {
    SmallPowers();
    if n > 5 { PowGrows(n - 1); }
  }

  lemma QuietStep(n: nat)
    ensures QuietTime(n + 1) == QuietTime(n) + Min(1000 * Pow2(n), 30000)
  {
    SmallPowers();
    if n >= 5 { PowGrows(n); }
    assert Pow2(n + 1) == 2 * Pow2(n);
    assert n < 5 ==> n == 0 || n == 1 || n == 2 || n == 3 || n == 4;
  }

  lemma {:induction false} UnavailableStarts(env: Env, n: nat)
    requires forall i :: 0 <= i < n ==> Unavailable(env.reply(i))
    ensures StartOf(env, n) >= env.start + Milliseconds(QuietTime(n))
  {
    if n > 0 {
      UnavailableStarts(env, n - 1);
      assert Unavailable(env.reply(n - 1));
      assert forall i :: 0 <= i < n - 1 ==> Unavailable(env.reply(i)) ==> StatusAt(env, i) == 503;
      BackoffOn503(env, n - 1);
      QuietStep(n - 1);
    }
  }

  lemma FiveMinutes(n: nat)
    requires QuietTime(n) < 300000
    ensures n <= 13
  {
  }

  /** A server that only ever says 503 sees a quick start and then one request per 30 s. */
  lemma UnavailableRequestsBounded(env: Env, maxSeconds: nat, poller: Poller, gets: nat, end: PollEnd)
    requires Polled(env, Deadline(env, maxSeconds), poller, gets, end) && gets > 0
    requires forall i :: 0 <= i < gets - 1 ==> Unavailable(env.reply(i))
    ensures QuietTime(gets - 1) < maxSeconds * 1000
    ensures maxSeconds == 300 ==> gets <= 14
  {
    UnavailableStarts(env, gets - 1);
    LastStart(env, maxSeconds, poller, gets, end);
    if maxSeconds == 300 { FiveMinutes(gets - 1); }
  }

  // ----- an immediate retry lifts the bound -----

  predicate AtOnce(reply: Option<Reply>) {
    reply == Some(Reply(202, Some(0)))
  }

  lemma {:induction false} SpinningStarts(env: Env, n: nat)
    requires forall i :: 0 <= i < n ==> AtOnce(env.reply(i)) && env.elapsed(i) == 1
    ensures StartOf(env, n) == env.start + n
  {
    if n > 0 {
      SpinningStarts(env, n - 1);
      assert AtOnce(env.reply(n - 1));
    }
  }

  /** `Retry-After: 0` is obeyed: only the time of the exchanges themselves limits the requests. */
  lemma ImmediateRetrySpins(env: Env, maxSeconds: nat, poller: Poller, gets: nat, end: PollEnd)
    requires AsksAgain(poller, 202) && Polled(env, Deadline(env, maxSeconds), poller, gets, end)
    requires forall i: nat :: AtOnce(env.reply(i)) && env.elapsed(i) == 1
    ensures gets == Seconds(maxSeconds) && end.TimedOut?
  {
    assert AtOnce(env.reply(if gets > 0 then gets - 1 else 0));
    SpinningStarts(env, gets);
    if gets > 0 {
      SpinningStarts(env, gets - 1);
      LastStart(env, maxSeconds, poller, gets, end);
    }
  }

  /** This is what the servers of this repository send with every pending reply, the first and the later ones. */
  lemma ServersSendZero(location: string, status: PendingStatus, requirement: Requirement)
    ensures SendsZero(DeferredWire.PrintCreated(location, requirement))
    ensures SendsZero(DeferredWire.PrintWaiting(status, requirement))
  {
  }

  predicate SendsZero(p: DeferredWire.Printed) {
    p.Printed? && p.status == 202 ==> "retry-after" in p.fields && p.fields["retry-after"] == "0"
  }

  /** Round `n` was started in time and asked to be repeated: with a 503, or for the agent also with a 202. */
  predicate Repeats(env: Env, deadline: nat, poller: Poller, n: nat) {
    && StartOf(env, n) < deadline && env.reply(n).Some?
    && (env.reply(n).value.status == 503 || (env.reply(n).value.status == 202 && poller == AgentPoller))
  }

  /** The loop ends with the first reply that asks for no repetition, with the first failure, or with the first round that is not in time. */
  lemma PollExactly(env: Env, deadline: nat, poller: Poller, gets: nat, end: PollEnd)
    ensures Polled(env, deadline, poller, gets, end) <==>
              if end.TimedOut? then
                (forall n: nat :: n < gets ==> Repeats(env, deadline, poller, n)) && StartOf(env, gets) >= deadline
              else
                && gets > 0 && (forall n: nat :: n < gets - 1 ==> Repeats(env, deadline, poller, n))
                && StartOf(env, gets - 1) < deadline && !Repeats(env, deadline, poller, gets - 1)
                && env.reply(gets - 1) == if end.Answered? then Some(end.reply) else None
  {
    forall n: nat ensures GoesOn(env, deadline, poller, n) <==> Repeats(env, deadline, poller, n) {
    }
  }
}
