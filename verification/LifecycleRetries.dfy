/** How often and how late an automatic reconnect sequence retries. */
module LifecycleRetries {
  import opened Common
  import opened Lifecycle
  import opened LifecycleInv
  import opened LifecycleRuns

  // -- backoff ---------------------------------------------------------------------------

  lemma {:induction false} PowerGrows(k: nat)
    ensures 1 <= Power(k) <= Power(k + 1)
  {
    if k > 0 { PowerGrows(k - 1); }
  }

  /** Counted retries wait ever longer, up to the configured maximum and never beyond. */
  lemma BackoffGrows(c: Config, attempt: nat)
    requires attempt >= 1
    ensures Backoff(c, attempt) <= Backoff(c, attempt + 1) <= c.maximumDelay
    ensures Backoff(c, 1) == if c.initialDelay < c.maximumDelay then c.initialDelay else c.maximumDelay
  {
    PowerGrows(attempt - 1);
    var p, q := Power(attempt - 1), Power(attempt);
    assert c.initialDelay * p <= c.initialDelay * q by { MulMonotone(c.initialDelay, p, q); }
  }

  // -- an automatic sequence ----------------------------------------------------------------

  function AttemptsOf(b: Bot): nat { if HasEntry(b) then Current(b).attempt else 0 }

  function WaitingSince(b: Bot): Option<int> { if HasEntry(b) then Current(b).waitingSince else None }

  /** A new timer was armed. */
  predicate Armed(b: Bot, r: Bot) { r.nextTimer > b.nextTimer }

  predicate CountedRetry(b: Bot, r: Bot) { Armed(b, r) && AttemptsOf(r) > AttemptsOf(b) }

  predicate UncountedRetry(b: Bot, r: Bot) { Armed(b, r) && AttemptsOf(r) <= AttemptsOf(b) }

  /** A step without a new intent that does not bring the Bot online. */
  predicate Automatic(b: Bot, e: Event)
  {
    match e
    case Spawn(_) => false
    case Reconnect => false
    case Despawn(_) => false
    case Rename(_, _) => false
    case CloseBegin => false
    case CloseFinish => false
    case ConnectDone(session) =>
      session !in b.flights || session >= |b.attempts| || !MayConnect(b, b.attempts[session].generation)
      || !HasEntry(b) || Current(b).session != Some(session)
    case _ => true
  }

  predicate AutomaticRun(c: Config, b: Bot, es: seq<Event>)
    decreases |es|
  {
    es == [] || (Automatic(b, es[0]) && AutomaticRun(c, Step(c, b, es[0]), es[1..]))
  }

  function CountedRetries(c: Config, b: Bot, es: seq<Event>): nat
    decreases |es|
  {
    if es == [] then 0
    else (if CountedRetry(b, Step(c, b, es[0])) then 1 else 0) + CountedRetries(c, Step(c, b, es[0]), es[1..])
  }

  function UncountedRetries(c: Config, b: Bot, es: seq<Event>): nat
    decreases |es|
  {
    if es == [] then 0
    else (if UncountedRetry(b, Step(c, b, es[0])) then 1 else 0) + UncountedRetries(c, Step(c, b, es[0]), es[1..])
  }

  /** The earliest time of the next try. */
  function NextTry(b: Bot): int
  {
    if HasEntry(b) && Current(b).timer.Some? && Current(b).timer.value in b.timers
       && b.timers[Current(b).timer.value].due > b.now
    then b.timers[Current(b).timer.value].due else b.now
  }

  /** How many uncounted retries are still possible. */
  function Room(c: Config, b: Bot): nat
    requires c.notReadyDelay >= 1
  {
    if WaitingSince(b).None? then CeilDiv(c.notReadyLimit, c.notReadyDelay)
    else
      var left := WaitingSince(b).value + c.notReadyLimit - NextTry(b);
      if left <= 0 then 0 else CeilDiv(left, c.notReadyDelay)
  }

  /** What an automatic step may do to the sequence: nothing, one counted retry, one uncounted, or giving up. */
  ghost predicate OneRetry(c: Config, b: Bot, r: Bot)
  {
    && r.now >= b.now
    && (if Armed(b, r) then
          && r.now == b.now && NextTry(b) == b.now && HasEntry(r) && Current(r).timer == Some(b.nextTimer) && b.nextTimer in r.timers
          && (|| (AttemptsOf(r) == AttemptsOf(b) + 1 <= c.maximumAttempts
                  && r.timers[b.nextTimer].due == b.now + Backoff(c, AttemptsOf(r))
                  && (WaitingSince(r) == WaitingSince(b) || (WaitingSince(b).None? && WaitingSince(r) == Some(b.now)
                      && c.notReadyLimit == 0)))
              || (AttemptsOf(r) == AttemptsOf(b)
                  && r.timers[b.nextTimer].due == b.now + c.notReadyDelay
                  && (WaitingSince(r) == WaitingSince(b) || (WaitingSince(b).None? && WaitingSince(r) == Some(b.now)))
                  && WaitingSince(r).Some? && b.now - WaitingSince(r).value < c.notReadyLimit))
        else
          && AttemptsOf(r) >= AttemptsOf(b)
          && (WaitingSince(r) == WaitingSince(b) || (WaitingSince(b).None? && WaitingSince(r) == Some(b.now)
              && c.notReadyLimit == 0 && r.now == b.now))
          && NextTry(r) >= NextTry(b))
  }

  lemma DisconnectedRetries(c: Config, b: Bot, session: Option<nat>, notReady: bool)
    requires HasEntry(b) && Handles(b, b.generation, session) && b.timers == map[]
    ensures OneRetry(c, b, Disconnected(c, b, b.generation, session, notReady))
  {
  }

  /** A report changes nothing but what it says is closed, unless it is acted on. */
  function Reported(b: Bot, e: Event): Bot
    requires e.ConnectFailed? || e.Closed?
  {
    if e.Closed? then b.(emitted := b.emitted + {e.session}, open := b.open - {e.session})
    else b.(flights := b.flights - {e.session}, open := b.open - {e.session})
  }

  lemma ReportRetries(c: Config, b: Bot, e: Event)
    requires Inv(b) && (e.ConnectFailed? || e.Closed?)
    ensures OneRetry(c, b, Step(c, b, e))
  {
    hide OneRetry, Inv;
    Nothing(c, b, b);
    if e.session < |b.attempts| && (e.ConnectFailed? ==> e.session in b.flights) && (e.Closed? ==> e.session !in b.emitted) {
      var held := if e.Closed? then Some(e.session) else HeldBy(b, e.session);
      var g, fewer := b.attempts[e.session].generation, Reported(b, e);
      assert Step(c, b, e) == Disconnected(c, fewer, g, held, e.notReady);
      if Handles(fewer, g, held) { ActedOn(c, b, e); } else {
        NotActedOn(c, fewer, g, held, e.notReady);
        Nothing(c, b, fewer);
      }
    }
  }

  lemma NotActedOn(c: Config, b: Bot, generation: nat, session: Option<nat>, notReady: bool)
    requires !Handles(b, generation, session)
    ensures Disconnected(c, b, generation, session, notReady) == b
  {
  }

  lemma Nothing(c: Config, b: Bot, r: Bot)
    requires r == b.(open := r.open, flights := r.flights, emitted := r.emitted)
    ensures OneRetry(c, b, r)
  {
  }

  lemma ActedOn(c: Config, b: Bot, e: Event)
    requires Inv(b) && (e.ConnectFailed? || e.Closed?) && e.session < |b.attempts|
    requires var held := if e.Closed? then Some(e.session) else HeldBy(b, e.session);
             Handles(b, b.attempts[e.session].generation, held)
    ensures var held := if e.Closed? then Some(e.session) else HeldBy(b, e.session);
            OneRetry(c, b, Disconnected(c, Reported(b, e), b.attempts[e.session].generation, held, e.notReady))
  {
    var held := if e.Closed? then Some(e.session) else HeldBy(b, e.session);
    HeldIsOwn(b, e.session);
    HandlesFacts(b, e.session, held);
    DisconnectedRetries(c, Reported(b, e), held, e.notReady);
    hide Disconnected;
    SameRetry(c, b, Reported(b, e), Disconnected(c, Reported(b, e), b.generation, held, e.notReady));
  }

  lemma SameRetry(c: Config, b: Bot, m: Bot, r: Bot)
    requires m == b.(open := m.open, flights := m.flights, emitted := m.emitted) && OneRetry(c, m, r)
    ensures OneRetry(c, b, r)
  {
  }

  lemma RetryRetries(c: Config, b: Bot, created: bool)
    requires Inv(b) && |b.queue| > 0 && b.queue[0].kind.RetryKind? && Desired(b)
    ensures OneRetry(c, b, AdvanceRetry(c, b, created))
  {
    assert TaskOk(b, 0);
    var g := b.queue[0].generation;
    if MayConnect(b, g) {
      assert CurrentRetry(b, b.queue[0]);
      NeverRefused(b);
      var state := NewState(Reconnecting, Previous(b)).(timer := None, handled := None);
      var e := Enter(Pop(b), state);
      assert AttemptsOf(e) == AttemptsOf(b) && WaitingSince(e) == WaitingSince(b) && NextTry(e) == b.now == NextTry(b);
      if !created {
        DisconnectedRetries(c, e, None, false);
        hide Disconnected;
        assert AdvanceRetry(c, b, created) == Disconnected(c, e, e.generation, None, false);
      }
    }
  }

  lemma TimerRetries(c: Config, b: Bot, timer: nat)
    requires Inv(b) && timer in b.timers && b.now >= b.timers[timer].due
    ensures OneRetry(c, b, Fire(b, timer))
  {
    FireFacts(b, timer);
  }

  /** Steps that neither report a loss nor run a transition nor fire a timer. */
  lemma OtherAutomatic(c: Config, b: Bot, e: Event)
    requires Inv(b) && NoIntent(b) && Desired(b) && !b.closing && Automatic(b, e)
    requires !e.Proceed? && !e.ConnectFailed? && !e.Closed? && !e.TimerFired?
    ensures var r := Step(c, b, e);
            OneRetry(c, b, r) && NoIntent(r) && Desired(r) && !r.closing
  {
    hide Disconnected, Advance, Fire, Submit;
  }

  lemma AutomaticStep(c: Config, b: Bot, e: Event)
    requires Inv(b) && NoIntent(b) && Desired(b) && !b.closing && Automatic(b, e)
    ensures var r := Step(c, b, e);
            OneRetry(c, b, r) && NoIntent(r) && Desired(r) && !r.closing
  {
    hide OneRetry, Disconnected, Advance;
    match e
    case Proceed(created, stored) => AutomaticProceed(c, b, created, stored);
    case ConnectFailed(_, _) =>
      ReportRetries(c, b, e);
      ReportQuiet(c, b, e);
    case Closed(_, _) =>
      ReportRetries(c, b, e);
      ReportQuiet(c, b, e);
    case TimerFired(timer) => AutomaticTimer(c, b, timer);
    case _ => OtherAutomatic(c, b, e);
  }

  lemma AutomaticTimer(c: Config, b: Bot, timer: nat)
    requires Inv(b) && NoIntent(b) && Desired(b) && !b.closing
    ensures var r := Step(c, b, TimerFired(timer));
            OneRetry(c, b, r) && NoIntent(r) && Desired(r) && !r.closing
  {
    if timer in b.timers && b.now >= b.timers[timer].due {
      TimerRetries(c, b, timer);
      FireFacts(b, timer);
    } else {
      Nothing(c, b, b);
    }
  }

  lemma DisconnectedQuiet(c: Config, b: Bot, generation: nat, session: Option<nat>, notReady: bool)
    ensures var r := Disconnected(c, b, generation, session, notReady);
            r.queue == b.queue && r.profile == b.profile && r.closing == b.closing
  {
  }

  lemma ReportQuiet(c: Config, b: Bot, e: Event)
    requires e.ConnectFailed? || e.Closed?
    ensures var r := Step(c, b, e);
            r.queue == b.queue && r.profile == b.profile && r.closing == b.closing
  {
    match e
    case ConnectFailed(session, notReady) =>
      if session < |b.attempts| {
        DisconnectedQuiet(c, b.(flights := b.flights - {session}, open := b.open - {session}),
                          b.attempts[session].generation, HeldBy(b, session), notReady);
      }
    case Closed(session, notReady) =>
      if session < |b.attempts| {
        DisconnectedQuiet(c, b.(emitted := b.emitted + {session}, open := b.open - {session}),
                          b.attempts[session].generation, Some(session), notReady);
      }
  }

  lemma ConnectQuiet(c: Config, b: Bot, generation: nat, reconnecting: bool, created: bool)
    ensures var r := Connect(c, b, generation, reconnecting, created);
            r.queue == b.queue && r.profile == b.profile && r.closing == b.closing
  {
  }

  lemma AutomaticProceed(c: Config, b: Bot, created: bool, stored: bool)
    requires Inv(b) && NoIntent(b) && Desired(b) && !b.closing
    ensures var r := Advance(c, b, created, stored);
            OneRetry(c, b, r) && NoIntent(r) && Desired(r) && !r.closing
  {
    if |b.queue| > 0 {
      assert TaskOk(b, 0) && !Intent(b.queue[0]);
      ConnectQuiet(c, Pop(b), b.queue[0].generation, true, created);
      if b.queue[0].kind.RetryKind? { RetryRetries(c, b, created); }
      hide Connect;
      assert forall i :: 0 <= i < |Pop(b).queue| ==> Pop(b).queue[i] == b.queue[i + 1];
    }
  }

  // -- the bounds -------------------------------------------------------------------------------

  lemma RoomShrinks(c: Config, b: Bot, r: Bot)
    requires c.notReadyDelay >= 1 && OneRetry(c, b, r)
    ensures Room(c, r) + (if UncountedRetry(b, r) then 1 else 0) <= Room(c, b)
  {
    var d, limit := c.notReadyDelay, c.notReadyLimit;
    if UncountedRetry(b, r) {
      assert NextTry(r) == b.now + d;
      CeilStep((if WaitingSince(b).None? then b.now else WaitingSince(b).value) + limit - b.now, d);
    } else if WaitingSince(b).Some? && WaitingSince(b).value + limit - NextTry(r) > 0 {
      CeilMonotone(WaitingSince(b).value + limit - NextTry(r), WaitingSince(b).value + limit - NextTry(b), d);
    }
  }

  lemma RoomBounded(c: Config, b: Bot)
    requires c.notReadyDelay >= 1 && Inv(b)
    ensures Room(c, b) <= CeilDiv(c.notReadyLimit, c.notReadyDelay)
  {
    if WaitingSince(b).Some? && WaitingSince(b).value + c.notReadyLimit - NextTry(b) > 0 {
      CeilMonotone(WaitingSince(b).value + c.notReadyLimit - NextTry(b), c.notReadyLimit, c.notReadyDelay);
    }
  }

  lemma {:induction false} SequenceBounded(c: Config, b: Bot, es: seq<Event>)
    requires Inv(b) && NoIntent(b) && Desired(b) && !b.closing && AutomaticRun(c, b, es)
    ensures CountedRetries(c, b, es) > 0 ==> CountedRetries(c, b, es) + AttemptsOf(b) <= c.maximumAttempts
    ensures c.notReadyDelay >= 1 ==> UncountedRetries(c, b, es) <= Room(c, b)
    decreases |es|
  {
    hide Inv, Step;
    if es != [] {
      var next := Step(c, b, es[0]);
      StepKeeps(c, b, es[0]);
      AutomaticStep(c, b, es[0]);
      if c.notReadyDelay >= 1 { RoomShrinks(c, b, next); }
      SequenceBounded(c, next, es[1..]);
    }
  }

  /**
   * From any reachable state in which only the automatic reconnecting is at work, until a new intent or until it is
   * online, a Bot makes at most maximumAttempts counted retries, and at most ceil(notReadyLimit / notReadyDelay)
   * uncounted ones while the server is starting.
   */
  lemma RetriesBounded(c: Config, profile: Profile, now: int, created: bool, before: seq<Event>, es: seq<Event>)
    ensures var b := Run(c, Started(c, profile, now, created), before);
            NoIntent(b) && Desired(b) && !b.closing && AutomaticRun(c, b, es) ==>
              && CountedRetries(c, b, es) <= c.maximumAttempts
              && (c.notReadyDelay >= 1 ==> UncountedRetries(c, b, es) <= CeilDiv(c.notReadyLimit, c.notReadyDelay))
  {
    var b := Run(c, Started(c, profile, now, created), before);
    StartedOk(c, profile, now, created);
    RunKeeps(c, Started(c, profile, now, created), before);
    if NoIntent(b) && Desired(b) && !b.closing && AutomaticRun(c, b, es) {
      SequenceBounded(c, b, es);
      if c.notReadyDelay >= 1 { RoomBounded(c, b); }
    }
  }

  /** The delays of the counted retries that a run arms, in order. */
  function CountedDelays(c: Config, b: Bot, es: seq<Event>): seq<int>
    decreases |es|
  {
    if es == [] then []
    else
      var r := Step(c, b, es[0]);
      (if CountedRetry(b, r) && b.nextTimer in r.timers then [r.timers[b.nextTimer].due - b.now] else [])
      + CountedDelays(c, r, es[1..])
  }

  lemma {:induction false} BackoffMonotone(c: Config, p: nat, q: nat)
    requires 1 <= p <= q
    ensures Backoff(c, p) <= Backoff(c, q) <= c.maximumDelay
    decreases q - p
  {
    hide Backoff;
    BackoffGrows(c, q);
    if p < q {
      BackoffMonotone(c, p, q - 1);
      BackoffGrows(c, q - 1);
    }
  }

  /**
   * In an automatic sequence the delays of the counted retries that are armed never fall and never exceed the maximum,
   * and there is one for every counted retry.
   */
  lemma {:induction false} DelaysNeverFall(c: Config, b: Bot, es: seq<Event>)
    requires Inv(b) && NoIntent(b) && Desired(b) && !b.closing && AutomaticRun(c, b, es)
    ensures var delays := CountedDelays(c, b, es);
      && |delays| == CountedRetries(c, b, es)
      && (forall i, k :: 0 <= i < k < |delays| ==> delays[i] <= delays[k])
      && (forall i :: 0 <= i < |delays| ==> Backoff(c, AttemptsOf(b) + 1) <= delays[i] <= c.maximumDelay)
    decreases |es|
  {
    hide Inv, Step, Backoff;
    if es != [] {
      var r := Step(c, b, es[0]);
      StepKeeps(c, b, es[0]);
      AutomaticStep(c, b, es[0]);
      DelaysNeverFall(c, r, es[1..]);
      BackoffMonotone(c, AttemptsOf(b) + 1, AttemptsOf(r) + 1);
      if CountedRetry(b, r) { BackoffMonotone(c, AttemptsOf(r), AttemptsOf(r) + 1); }
    }
  }

  /**
   * In such a sequence a counted retry is armed with the backoff of its number and an uncounted one with the fixed
   * delay of a server that is starting, and no timer fires before its time.
   */
  lemma RetryDelays(c: Config, b: Bot, e: Event)
    requires Inv(b) && NoIntent(b) && Desired(b) && !b.closing && Automatic(b, e)
    ensures var r := Step(c, b, e);
            && (Armed(b, r) ==> b.nextTimer in r.timers)
            && (CountedRetry(b, r) ==> AttemptsOf(r) == AttemptsOf(b) + 1 <= c.maximumAttempts &&
                                       r.timers[b.nextTimer].due == b.now + Backoff(c, AttemptsOf(r)))
            && (UncountedRetry(b, r) ==> r.timers[b.nextTimer].due == b.now + c.notReadyDelay)
            && (e.TimerFired? && r != b ==> e.timer in b.timers && b.now >= b.timers[e.timer].due)
  {
    AutomaticStep(c, b, e);
  }

  /** With no time allowed for a server that is starting, every retry is counted. */
  lemma {:induction false} NoneUncounted(c: Config, b: Bot, es: seq<Event>)
    requires Inv(b) && NoIntent(b) && Desired(b) && !b.closing && AutomaticRun(c, b, es) && c.notReadyLimit == 0
    ensures UncountedRetries(c, b, es) == 0
    decreases |es|
  {
    hide Step;
    if es != [] {
      var next := Step(c, b, es[0]);
      StepKeeps(c, b, es[0]);
      AutomaticStep(c, b, es[0]);
      assert HasEntry(next) && Current(next).waitingSince.Some? ==> next.objects[next.entry.value].waitingSince.value <= next.now;
      NoneUncounted(c, next, es[1..]);
    }
  }

  /** A Bot whose connect is in flight, told again and again that its server is starting. */
  ghost predicate Starving(c: Config, b: Bot)
  {
    && Inv(b) && b.queue == [] && b.timers == map[] && Desired(b) && !b.closing && Flying(b)
    && (Current(b).waitingSince.Some? ==> Current(b).waitingSince.value == b.now)
  }

  lemma StarvedConnect(c: Config, b: Bot)
    requires Starving(c, b) && c.notReadyDelay == 0 && c.notReadyLimit > 0
    ensures var e := ConnectFailed(Current(b).session.value, true);
            var r := Step(c, b, e);
            && Automatic(b, e) && UncountedRetry(b, r) && Inv(r)
            && r.queue == [] && Desired(r) && !r.closing && r.now == b.now
            && b.nextTimer in r.timers && r.timers[b.nextTimer].due == r.now
            && Waiting(r) && Current(r).waitingSince == Some(r.now)
  {
    var session := Current(b).session.value;
    StepKeeps(c, b, ConnectFailed(session, true));
    HeldIsOwn(b, session);
    assert OfLatest(b, b.objects[b.entry.value]);
  }

  lemma StarvedTimer(c: Config, b: Bot, timer: nat)
    requires Inv(b) && b.queue == [] && Desired(b) && !b.closing && timer in b.timers && b.timers[timer].due == b.now
    requires Waiting(b) && Current(b).waitingSince == Some(b.now)
    ensures var r := Step(c, b, TimerFired(timer));
            && Inv(r) && r.queue == [Task(RetryKind, r.generation, Queued)] && r.timers == map[]
            && Desired(r) && !r.closing && r.now == b.now && Waiting(r) && Current(r).waitingSince == Some(r.now)
  {
    StepKeeps(c, b, TimerFired(timer));
    FireFacts(b, timer);
  }

  lemma StarvedRetry(c: Config, b: Bot)
    requires Inv(b) && b.queue == [Task(RetryKind, b.generation, Queued)] && b.timers == map[]
    requires Desired(b) && !b.closing && Waiting(b) && Current(b).waitingSince == Some(b.now)
    ensures Starving(c, Step(c, b, Proceed(true, true)))
  {
    StepKeeps(c, b, Proceed(true, true));
  }

  lemma {:induction false} Starve(c: Config, b: Bot, n: nat) returns (es: seq<Event>)
    requires Starving(c, b) && c.notReadyDelay == 0 && c.notReadyLimit > 0
    ensures AutomaticRun(c, b, es) && UncountedRetries(c, b, es) >= n
    decreases n
  {
    es := [];
    if n > 0 {
      var e1, e2, e3 := ConnectFailed(Current(b).session.value, true), TimerFired(b.nextTimer), Proceed(true, true);
      var b1 := Step(c, b, e1);
      StarvedConnect(c, b);
      var b2 := Step(c, b1, e2);
      StarvedTimer(c, b1, b.nextTimer);
      var b3 := Step(c, b2, e3);
      StarvedRetry(c, b2);
      var rest := Starve(c, b3, n - 1);
      hide Step, Inv, UncountedRetry, Starving;
      Prefixed(c, b2, e3, rest);
      Prefixed(c, b1, e2, [e3] + rest);
      Prefixed(c, b, e1, [e2] + ([e3] + rest));
      es := [e1] + ([e2] + ([e3] + rest));
    }
  }

  lemma Prefixed(c: Config, b: Bot, e: Event, es: seq<Event>)
    requires Automatic(b, e) && AutomaticRun(c, Step(c, b, e), es)
    ensures AutomaticRun(c, b, [e] + es)
    ensures UncountedRetries(c, b, [e] + es)
            == (if UncountedRetry(b, Step(c, b, e)) then 1 else 0) + UncountedRetries(c, Step(c, b, e), es)
  {
    assert ([e] + es)[1..] == es;
  }

  ghost predicate UncountedAtMost(c: Config, n: nat)
  {
    forall b, es :: Inv(b) && NoIntent(b) && Desired(b) && !b.closing && AutomaticRun(c, b, es) ==>
      UncountedRetries(c, b, es) <= n
  }

  /** The uncounted retries of a sequence are bounded exactly when their delay is positive or no time is allowed. */
  lemma UncountedBoundedExactlyWhen(c: Config)
    ensures (c.notReadyDelay >= 1 || c.notReadyLimit == 0)
            <==> exists n: nat :: UncountedAtMost(c, n)
  {
    if c.notReadyDelay >= 1 || c.notReadyLimit == 0 {
      var n: nat := if c.notReadyDelay >= 1 then CeilDiv(c.notReadyLimit, c.notReadyDelay) else 0;
      forall b, es | Inv(b) && NoIntent(b) && Desired(b) && !b.closing && AutomaticRun(c, b, es)
        ensures UncountedRetries(c, b, es) <= n
      {
        if c.notReadyDelay >= 1 {
          SequenceBounded(c, b, es);
          RoomBounded(c, b);
        } else {
          NoneUncounted(c, b, es);
        }
      }
      assert UncountedAtMost(c, n);
    } else {
      var b := Started(c, Profile("a", true), 0, true);
      StartedOk(c, Profile("a", true), 0, true);
      assert Starving(c, b);
      forall n: nat ensures !UncountedAtMost(c, n) { var es := Starve(c, b, n + 1); }
    }
  }
}
