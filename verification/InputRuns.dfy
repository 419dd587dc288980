/** When the jobs of the input scheduler trigger and end, over every run of calls and ticks. */
module InputRuns {
  import opened Common
  import opened InputModel
  import opened InputJobs

  // -- following one job by its id -----------------------------------------------------

  ghost predicate Has(jobs: seq<Job>, id: nat) { exists i :: 0 <= i < |jobs| && jobs[i].revision == id }

  ghost predicate Live(s: Inputs, id: nat) { Has(s.jobs, id) }

  ghost function JobOf(s: Inputs, id: nat): (job: Job)
    requires Live(s, id)
    ensures job in s.jobs && job.revision == id
  {
    var i :| 0 <= i < |s.jobs| && s.jobs[i].revision == id;
    s.jobs[i]
  }

  /** The same job, up to its countdown and to when a legacy timed use ends. */
  predicate Same(j: Job, k: Job)
  {
    && j.action == k.action && j.mode == k.mode && j.interval == k.interval && j.hold == k.hold
    && j.revision == k.revision && j.duration == k.duration && j.next == k.next
    && (j.duration.None? ==> j.endTick == k.endTick)
  }

  lemma TheJob(s: Inputs, job: Job)
    requires OnePlace(s) && job in s.jobs
    ensures Live(s, job.revision) && JobOf(s, job.revision) == job
  {
    RevisionsDiffer(s);
    var i :| 0 <= i < |s.jobs| && s.jobs[i] == job;
    var k :| 0 <= k < |s.jobs| && s.jobs[k] == JobOf(s, job.revision);
  }

  /** Every job of a list was there before, or has a new id. */
  ghost predicate FromBefore(s: Inputs, jobs: seq<Job>)
  {
    forall x :: x in jobs ==> x.revision > s.sequence || exists y :: y in s.jobs && Same(y, x)
  }

  lemma Subset(s: Inputs, jobs: seq<Job>)
    requires forall x :: x in jobs ==> x in s.jobs
    ensures FromBefore(s, jobs)
  {
    forall x | x in jobs ensures exists y :: y in s.jobs && Same(y, x) { assert Same(x, x); }
  }

  lemma EndActionJobs(s: Inputs, action: Action, reason: Reason)
    ensures EndAction(s, action, reason).tick == s.tick
    ensures FromBefore(s, EndAction(s, action, reason).jobs)
  {
    Subset(s, EndAction(s, action, reason).jobs);
  }

  lemma TouchedJobs(s: Inputs, i: nat, job: Job)
    requires i < |s.jobs| && Same(s.jobs[i], job)
    ensures FromBefore(s, s.jobs[i := job])
  {
    var touched := s.jobs[i := job];
    forall x | x in touched ensures exists y :: y in s.jobs && Same(y, x) {
      if x in s.jobs { assert Same(x, x); } else { assert Same(s.jobs[i], x); }
    }
  }

  lemma EndActionSubset(s: Inputs, action: Action, reason: Reason)
    ensures EndAction(s, action, reason).tick == s.tick
    ensures forall x :: x in EndAction(s, action, reason).jobs ==> x in s.jobs
  {
  }

  lemma CountHitJobs(s: Inputs, action: Action, revision: nat)
    ensures CountHit(s, action, revision).tick == s.tick
    ensures FromBefore(s, CountHit(s, action, revision).jobs)
  {
    hide EndAction, Same;
    var i := Find(s.jobs, action);
    if i < |s.jobs| && s.jobs[i].revision == revision && s.jobs[i].remaining.Some? {
      var job := s.jobs[i].(remaining := Some(s.jobs[i].remaining.value - 1));
      var counted := s.(jobs := s.jobs[i := job]);
      TouchedJobs(s, i, job);
      assert FromBefore(s, counted.jobs);
      EndActionSubset(counted, action, CountReached);
    } else {
      Subset(s, s.jobs);
    }
  }

  lemma StartTimedUseJobs(s: Inputs, revision: nat)
    ensures StartTimedUse(s, revision).tick == s.tick
    ensures FromBefore(s, StartTimedUse(s, revision).jobs)
  {
    var i := Find(s.jobs, Use);
    if i < |s.jobs| && s.jobs[i].revision == revision && s.jobs[i].duration.Some? && s.jobs[i].endTick.None? {
      TouchedJobs(s, i, s.jobs[i].(endTick := Some(s.tick + s.jobs[i].duration.value)));
    } else {
      Subset(s, s.jobs);
    }
  }

  /** A call other than a tick leaves only jobs that were there, and perhaps one with a new id. */
  lemma CallJobs(s: Inputs, e: Event)
    requires !e.DoStep?
    ensures Apply(s, e).tick == s.tick && Apply(s, e).sequence >= s.sequence
    ensures FromBefore(s, Apply(s, e).jobs)
  {
    match e
    case DoSetAction(request) =>
      EndActionJobs(s, request.action, request.reason);
      EndActionJobs(s, request.action, Replaced);
      Subset(s, s.jobs);
    case DoStopTargeted(reason) =>
      SplitMembers(s.jobs);
      forall x | x in Untargeted(s.jobs) ensures x in s.jobs {
        var i :| 0 <= i < |Untargeted(s.jobs)| && Untargeted(s.jobs)[i] == x;
      }
      Subset(s, Untargeted(s.jobs));
    case DoCountHit(action, revision) => CountHitJobs(s, action, revision);
    case DoStartTimedUse(revision) => StartTimedUseJobs(s, revision);
    case DoFinishHold(revision) =>
      EndActionJobs(s, Use, Completed);
      Subset(s, s.jobs);
    case DoCancelTimedUse(reason) =>
      EndActionJobs(s, Use, reason);
      Subset(s, s.jobs);
    case DoStep =>
    case _ =>
      Subset(s, s.jobs);
  }

  /** What one event does to a job: a call keeps its schedule or ends it, a tick sweeps it. */
  lemma Follow(s: Inputs, e: Event, id: nat)
    requires Inv(s) && id <= s.sequence
    ensures Apply(s, e).sequence >= s.sequence
    ensures Live(Apply(s, e), id) ==> Live(s, id)
    ensures !e.DoStep? ==> Apply(s, e).tick == s.tick
    ensures e.DoStep? ==> Apply(s, e).tick == s.tick + 1
    ensures !e.DoStep? && Live(Apply(s, e), id) ==>
              Same(JobOf(s, id), JobOf(Apply(s, e), id))
    ensures e.DoStep? && Live(s, id) ==>
              var kept := SweepJob(JobOf(s, id), s.tick + 1).kept;
              if kept == [] then !Live(Apply(s, e), id) else Live(Apply(s, e), id) && JobOf(Apply(s, e), id) == kept[0]
  {
    var r := Apply(s, e);
    ApplyKeeps(s, e);
    if e.DoStep? {
      FollowStep(s, id);
    } else {
      hide Apply, OnePlace, EndsOlder;
      CallJobs(s, e);
      if Live(r, id) {
        var x := JobOf(r, id);
        var y :| y in s.jobs && Same(y, x);
        TheJob(s, y);
      }
    }
  }

  lemma StepJobFrom(s: Inputs, id: nat)
    requires OnePlace(s) && Live(Step(s), id)
    ensures Live(s, id) && SweepJob(JobOf(s, id), s.tick + 1).kept == [JobOf(Step(s), id)]
  {
    hide OnePlace;
    var r := Step(s);
    var x := JobOf(r, id);
    var k :| 0 <= k < |r.jobs| && r.jobs[k] == x;
    var n := KeptFrom(s.jobs, s.tick + 1, k);
    TheJob(s, s.jobs[n]);
  }

  lemma FollowStep(s: Inputs, id: nat)
    requires Inv(s)
    ensures Live(Step(s), id) ==> Live(s, id)
    ensures Live(s, id) ==>
              var kept := SweepJob(JobOf(s, id), s.tick + 1).kept;
              if kept == [] then !Live(Step(s), id) else Live(Step(s), id) && JobOf(Step(s), id) == kept[0]
  {
    hide OnePlace, EndsOlder;
    var r := Step(s);
    ApplyKeeps(s, DoStep);
    if Live(r, id) { StepJobFrom(s, id); }
    if Live(s, id) {
      var y := JobOf(s, id);
      var i :| 0 <= i < |s.jobs| && s.jobs[i] == y;
      SweepOf(s.jobs, s.tick + 1, i);
      if SweepJob(y, s.tick + 1).kept != [] {
        assert SweepJob(y, s.tick + 1).kept[0] in r.jobs;
        TheJob(r, SweepJob(y, s.tick + 1).kept[0]);
      }
    }
  }

  lemma LiveJobOk(s: Inputs, id: nat)
    requires Inv(s) && Live(s, id)
    ensures JobOk(JobOf(s, id), s.tick)
  {
    hide OnePlace, EndsOlder;
    var i :| 0 <= i < |s.jobs| && s.jobs[i] == JobOf(s, id);
    assert JobOk(s.jobs[i], s.tick);
  }

  // -- what a run reports about one job ---------------------------------------------------

  /** Whether a tick reports a trigger of this job. */
  ghost predicate Fired(s: Inputs, id: nat) { Has(StepOutput(s).triggered, id) }

  lemma FiredIs(s: Inputs, id: nat)
    requires Inv(s)
    ensures Fired(s, id) <==> Live(s, id) && SweepJob(JobOf(s, id), s.tick + 1).fired != []
  {
    hide JobsOk, OnePlace, EndsOlder;
    var fired := StepOutput(s).triggered;
    if Fired(s, id) {
      var k :| 0 <= k < |fired| && fired[k].revision == id;
      var n := FiredFrom(s.jobs, s.tick + 1, k);
      TheJob(s, s.jobs[n]);
    }
    if Live(s, id) && SweepJob(JobOf(s, id), s.tick + 1).fired != [] {
      var y := JobOf(s, id);
      var i :| 0 <= i < |s.jobs| && s.jobs[i] == y;
      SweepOf(s.jobs, s.tick + 1, i);
      assert y in SweepJob(y, s.tick + 1).fired;
    }
  }

  /** The ticks at which a run reports triggers of one job, in order. */
  ghost function Fires(s: Inputs, es: seq<Event>, id: nat): seq<nat>
    decreases |es|
  {
    if es == [] then []
    else (if es[0].DoStep? && Fired(s, id) then [s.tick + 1] else []) + Fires(Apply(s, es[0]), es[1..], id)
  }

  /** How a job leaves a run: still running at its end, or ended by an event while the clock showed a tick. */
  datatype Fate = Running(tick: nat) | Ended(cause: Event, tick: nat)

  ghost function FateOf(s: Inputs, es: seq<Event>, id: nat): Fate
    decreases |es|
  {
    if es == [] then Running(s.tick)
    else if !Live(Apply(s, es[0]), id) then Ended(es[0], Apply(s, es[0]).tick)
    else FateOf(Apply(s, es[0]), es[1..], id)
  }

  /** The last tick at which the job could trigger: a tick that ends a repeating job does not trigger it. */
  function Horizon(fate: Fate): int { if fate.Ended? && fate.cause.DoStep? then fate.tick - 1 else fate.tick }

  /** The ticks first, first + interval, ... up to a last one. */
  function Ticks(first: nat, interval: nat, last: int): seq<nat>
    requires interval >= 1
    decreases last - first
  {
    if last < first then [] else [first] + Ticks(first + interval, interval, last)
  }

  lemma {:induction false} TicksAre(first: nat, interval: nat, last: int)
    requires interval >= 1 && last >= first - 1
    ensures |Ticks(first, interval, last)| == CeilDiv(last - first + 1, interval)
    ensures forall k :: 0 <= k < |Ticks(first, interval, last)| ==> Ticks(first, interval, last)[k] == first + k * interval
    decreases last - first
  {
    if last >= first {
      var rest := Ticks(first + interval, interval, last);
      var span := last - first + 1;
      CeilStep(span, interval);
      if span <= interval {
        assert Ticks(first, interval, last) == [first];
      } else {
        TicksAre(first + interval, interval, last);
        forall k | 0 < k <= |rest| ensures ([first] + rest)[k] == first + k * interval {
          assert rest[k - 1] == first + interval + (k - 1) * interval;
          assert (k - 1) * interval == k * interval - interval;
        }
      }
    }
  }

  lemma {:induction false} GoneForGood(s: Inputs, es: seq<Event>, id: nat)
    requires Inv(s) && id <= s.sequence && !Live(s, id)
    ensures Fires(s, es, id) == [] && !Live(Run(s, es), id)
    decreases |es|
  {
    hide Apply, OnePlace, EndsOlder;
    if es != [] {
      ApplyKeeps(s, es[0]);
      Follow(s, es[0], id);
      FiredIs(s, id);
      GoneForGood(Apply(s, es[0]), es[1..], id);
    }
  }

  lemma {:induction false} FateAfter(s: Inputs, es: seq<Event>, id: nat)
    requires Inv(s) && id <= s.sequence && Live(s, id)
    ensures Horizon(FateOf(s, es, id)) >= s.tick
    ensures FateOf(s, es, id).Running? <==> Live(Run(s, es), id)
    ensures FateOf(s, es, id).Running? ==> FateOf(s, es, id).tick == Run(s, es).tick
    decreases |es|
  {
    hide Apply, OnePlace, EndsOlder;
    if es != [] {
      var next := Apply(s, es[0]);
      ApplyKeeps(s, es[0]);
      Follow(s, es[0], id);
      if Live(next, id) { FateAfter(next, es[1..], id); } else { GoneForGood(next, es[1..], id); }
    }
  }

  /**
   * Over every run, a repeating job triggers exactly at its due tick and every interval after it, up to the last
   * tick it lives through; no call on another channel, and no call on its own that leaves it running, shifts it.
   */
  lemma {:induction false} RepeatsOnSchedule(s: Inputs, es: seq<Event>, id: nat)
    requires Inv(s) && id <= s.sequence && Live(s, id) && Repeating(JobOf(s, id))
    ensures var job := JobOf(s, id);
            JobOk(job, s.tick)
            && Fires(s, es, id) == Ticks(job.next.tick, job.interval, Horizon(FateOf(s, es, id)))
    decreases |es|
  {
    hide Apply, Inv, Live;
    var job := JobOf(s, id);
    LiveJobOk(s, id);
    if es != [] {
      var next := Apply(s, es[0]);
      ApplyKeeps(s, es[0]);
      Follow(s, es[0], id);
      FiredIs(s, id);
      if Live(next, id) {
        RepeatsOnSchedule(next, es[1..], id);
        FateAfter(next, es[1..], id);
      } else {
        GoneForGood(next, es[1..], id);
      }
    }
  }

  /** A job whose end is fixed never outlives it, and a tick ends it exactly then. */
  lemma {:induction false} EndsOnTime(s: Inputs, es: seq<Event>, id: nat)
    requires Inv(s) && id <= s.sequence && Live(s, id)
    requires var job := JobOf(s, id);
             Repeating(job) && job.duration.None? && job.endTick.Some?
    ensures var job, fate := JobOf(s, id), FateOf(s, es, id);
            && Horizon(fate) < job.endTick.value
            && (fate.Ended? && fate.cause.DoStep? ==>
                  fate.tick == job.endTick.value &&
                  End(ActionChannel(job.action), id, DurationElapsed) in Run(s, es).ends)
    decreases |es|
  {
    var job := JobOf(s, id);
    var i :| 0 <= i < |s.jobs| && s.jobs[i] == job;
    assert JobOk(job, s.tick);
    if es != [] {
      var next := Apply(s, es[0]);
      ApplyKeeps(s, es[0]);
      Follow(s, es[0], id);
      if Live(next, id) {
        EndsOnTime(next, es[1..], id);
      } else if es[0].DoStep? {
        SweepOf(s.jobs, s.tick + 1, i);
        assert EndOf(job, DurationElapsed) in SweepJob(job, s.tick + 1).ended;
        assert EndOf(job, DurationElapsed) in next.ends;
        EndsGrow(next, es[1..]);
      }
    }
  }

  lemma ApplyEndsGrow(s: Inputs, e: Event)
    ensures s.ends <= Apply(s, e).ends
  {
    hide Find, Sweep, Targeted, Untargeted;
  }

  lemma {:induction false} EndsGrow(s: Inputs, es: seq<Event>)
    ensures s.ends <= Run(s, es).ends
    decreases |es|
  {
    hide Apply, OnePlace, EndsOlder;
    if es != [] {
      ApplyEndsGrow(s, es[0]);
      EndsGrow(Apply(s, es[0]), es[1..]);
    }
  }

  /** What an accepted request starts. */
  lemma Accepted(s: Inputs, r: Request)
    requires Inv(s) && Refusal(r).None? && r.mode != Stop
    ensures var after, id := Apply(s, DoSetAction(r)), s.sequence + 1;
            && Inv(after) && after.tick == s.tick && after.sequence == id
            && Live(after, id) && JobOf(after, id) == NewJob(s, r)
  {
    ApplyKeeps(s, DoSetAction(r));
    var after := Apply(s, DoSetAction(r));
    TheJob(after, after.jobs[|after.jobs| - 1]);
  }

  /**
   * A repeating action accepted at a tick triggers first on the next one and then every interval. With a duration
   * (other than the legacy timed use) a tick ends it exactly duration + 1 ticks after acceptance, recorded as
   * elapsed, with ceil(duration / interval) triggers; and it is never still running at that time.
   */
  lemma RepeatingAction(s: Inputs, r: Request, es: seq<Event>)
    requires Inv(s) && Refusal(r).None? && (r.mode == Continuous || r.mode == Interval)
    ensures var after, id := Apply(s, DoSetAction(r)), s.sequence + 1;
            var fate, fires := FateOf(after, es, id), Fires(after, es, id);
            && Horizon(fate) >= s.tick
            && |fires| == CeilDiv(Horizon(fate) - s.tick, IntervalOf(r))
            && (forall k :: 0 <= k < |fires| ==> fires[k] == s.tick + 1 + k * IntervalOf(r))
            && (r.duration.Some? && !LegacyTimedUse(r) ==>
                  && (fate.Ended? && fate.cause.DoStep? ==>
                        && fate.tick == s.tick + 1 + r.duration.value
                        && |fires| == CeilDiv(r.duration.value, IntervalOf(r))
                        && End(ActionChannel(r.action), id, DurationElapsed) in Run(after, es).ends)
                  && (Run(after, es).tick >= s.tick + 1 + r.duration.value ==> fate.Ended?))
  {
    hide Run;
    hide Apply, OnePlace, EndsOlder;
    var after, id := Apply(s, DoSetAction(r)), s.sequence + 1;
    Accepted(s, r);
    RepeatsOnSchedule(after, es, id);
    FateAfter(after, es, id);
    TicksAre(s.tick + 1, IntervalOf(r), Horizon(FateOf(after, es, id)));
    if r.duration.Some? && !LegacyTimedUse(r) { EndsOnTime(after, es, id); }
  }

  /** A one-shot action triggers exactly once, on the tick after acceptance, unless a call ends it before. */
  lemma OneShotAction(s: Inputs, r: Request, es: seq<Event>)
    requires Inv(s) && Refusal(r).None? && r.mode == Once
    ensures var after, id := Apply(s, DoSetAction(r)), s.sequence + 1;
            var fate := FateOf(after, es, id);
            Fires(after, es, id) == if fate.tick == s.tick then [] else [s.tick + 1]
  {
    hide Apply, OnePlace, EndsOlder;
    var after, id := Apply(s, DoSetAction(r)), s.sequence + 1;
    Accepted(s, r);
    OneShot(after, es, id);
  }

  lemma {:induction false} OneShot(s: Inputs, es: seq<Event>, id: nat)
    requires Inv(s) && id <= s.sequence && Live(s, id)
    requires var job := JobOf(s, id);
             job.mode == Once && job.endTick.None? && job.duration.None? && (job.next.At? ==> job.next.tick == s.tick + 1)
    ensures FateOf(s, es, id).tick >= s.tick
    ensures Fires(s, es, id)
            == if JobOf(s, id).next.Never? || FateOf(s, es, id).tick == s.tick then [] else [s.tick + 1]
    decreases |es|
  {
    hide Apply, Inv, Live;
    LiveJobOk(s, id);
    if es != [] {
      var next := Apply(s, es[0]);
      ApplyKeeps(s, es[0]);
      Follow(s, es[0], id);
      FiredIs(s, id);
      if Live(next, id) { OneShot(next, es[1..], id); } else { GoneForGood(next, es[1..], id); }
    }
  }

  // -- timed moves ------------------------------------------------------------------------

  predicate Moving(s: Inputs, id: nat) { s.movementJob == Some(id) }

  /** The ticks at which a run reports the movement of one job. */
  function Reports(s: Inputs, es: seq<Event>, id: nat): seq<nat>
    decreases |es|
  {
    if es == [] then []
    else (if es[0].DoStep? && BeginStep(s).movementJob == Some(id) && StepOutput(s).movement.Some? then [s.tick + 1]
          else []) + Reports(Apply(s, es[0]), es[1..], id)
  }

  function MoveFate(s: Inputs, es: seq<Event>, id: nat): Fate
    decreases |es|
  {
    if es == [] then Running(s.tick)
    else if !Moving(Apply(s, es[0]), id) then Ended(es[0], Apply(s, es[0]).tick)
    else MoveFate(Apply(s, es[0]), es[1..], id)
  }

  /** What one event does to the movement job: it stays as it was, or it is ended for good. */
  lemma FollowMove(s: Inputs, e: Event, id: nat)
    requires Inv(s) && id <= s.sequence
    ensures Apply(s, e).sequence >= s.sequence
    ensures Apply(s, e).tick == s.tick + if e.DoStep? then 1 else 0
    ensures Moving(Apply(s, e), id) ==> Moving(s, id) && Apply(s, e).movementEnd == s.movementEnd
    ensures e.DoStep? && Moving(s, id) ==>
              (Moving(Apply(s, e), id) <==> s.movementEnd.None? || s.tick + 1 < s.movementEnd.value)
    ensures e.DoStep? ==> (BeginStep(s).movementJob == Apply(s, e).movementJob)
    ensures e.DoStep? && Moving(s, id) && !Moving(Apply(s, e), id) ==>
              End(MoveChannel, id, DurationElapsed) in Apply(s, e).ends
  {
    hide OnePlace, EndsOlder, Distinct, Sweep, Find, EndsOf, Targeted, Untargeted;
  }

  lemma {:induction false} StoppedForGood(s: Inputs, es: seq<Event>, id: nat)
    requires Inv(s) && id <= s.sequence && !Moving(s, id)
    ensures Reports(s, es, id) == []
    decreases |es|
  {
    hide Apply, OnePlace, EndsOlder;
    if es != [] {
      ApplyKeeps(s, es[0]);
      FollowMove(s, es[0], id);
      StoppedForGood(Apply(s, es[0]), es[1..], id);
    }
  }

  lemma {:induction false} ReportsEveryTick(s: Inputs, es: seq<Event>, id: nat)
    requires Inv(s) && id <= s.sequence && Moving(s, id)
    ensures var fate := MoveFate(s, es, id);
            && Horizon(fate) >= s.tick
            && Reports(s, es, id) == Ticks(s.tick + 1, 1, Horizon(fate))
            && (s.movementEnd.Some? ==> Horizon(fate) < s.movementEnd.value)
            && (fate.Ended? && fate.cause.DoStep? ==>
                  s.movementEnd == Some(fate.tick) && End(MoveChannel, id, DurationElapsed) in Run(s, es).ends)
    decreases |es|
  {
    hide Apply, OnePlace, EndsOlder;
    if es != [] {
      var next := Apply(s, es[0]);
      ApplyKeeps(s, es[0]);
      FollowMove(s, es[0], id);
      if Moving(next, id) {
        ReportsEveryTick(next, es[1..], id);
      } else {
        StoppedForGood(next, es[1..], id);
        EndsGrow(next, es[1..]);
      }
    }
  }

  lemma AcceptedMove(s: Inputs, direction: Direction, duration: Option<int>)
    requires Inv(s) && MovementRefusal(direction, duration).None? && direction != Halt && duration.Some?
    ensures var after, id := Apply(s, DoSetMovement(direction, duration, Replaced)), s.sequence + 1;
            && Inv(after) && after.tick == s.tick && after.sequence == id && Moving(after, id)
            && after.movementEnd == Some(s.tick + 1 + duration.value)
  {
    ApplyKeeps(s, DoSetMovement(direction, duration, Replaced));
  }

  /**
   * A timed move is reported by every tick it lives through: exactly its duration when a tick ends it, and that
   * tick is the one right after, recorded as elapsed.
   */
  lemma TimedMove(s: Inputs, direction: Direction, duration: Option<int>, es: seq<Event>)
    requires Inv(s) && MovementRefusal(direction, duration).None? && direction != Halt && duration.Some?
    ensures var after, id := Apply(s, DoSetMovement(direction, duration, Replaced)), s.sequence + 1;
            var fate, reports := MoveFate(after, es, id), Reports(after, es, id);
            && |reports| == Horizon(fate) - s.tick <= duration.value
            && (forall k :: 0 <= k < |reports| ==> reports[k] == s.tick + 1 + k)
            && (fate.Ended? && fate.cause.DoStep? ==>
                  && |reports| == duration.value && fate.tick == s.tick + 1 + duration.value
                  && End(MoveChannel, id, DurationElapsed) in Run(after, es).ends)
  {
    hide Apply, Run, OnePlace, EndsOlder;
    var after, id := Apply(s, DoSetMovement(direction, duration, Replaced)), s.sequence + 1;
    AcceptedMove(s, direction, duration);
    ReportsEveryTick(after, es, id);
    TicksAre(s.tick + 1, 1, Horizon(MoveFate(after, es, id)));
  }

  // -- sprint and sneak transitions ---------------------------------------------------------

  function OfFlag(transitions: seq<Transition>, flag: Flag): seq<bool>
  {
    if transitions == [] then []
    else OfFlag(transitions[..|transitions| - 1], flag)
         + if transitions[|transitions| - 1].flag == flag then [transitions[|transitions| - 1].start] else []
  }

  /** The transitions of one flag that the ticks of a run deliver, followed by those still pending. */
  function Edges(s: Inputs, es: seq<Event>, flag: Flag): seq<bool>
    decreases |es|
  {
    if es == [] then OfFlag(s.transitions, flag)
    else (if es[0].DoStep? then OfFlag(StepOutput(s).transitions, flag) else []) + Edges(Apply(s, es[0]), es[1..], flag)
  }

  /** Strictly alternating values that start with the opposite of one value and end in another. */
  predicate Alternates(from: bool, edges: seq<bool>, to: bool)
    decreases |edges|
  {
    if edges == [] then from == to else edges[0] == !from && Alternates(edges[0], edges[1..], to)
  }

  lemma {:induction false} AlternatesAppend(from: bool, a: seq<bool>, mid: bool, b: seq<bool>, to: bool)
    requires Alternates(from, a, mid) && Alternates(mid, b, to)
    ensures Alternates(from, a + b, to)
    decreases |a|
  {
    if a == [] {
      assert a + b == b;
    } else {
      AlternatesAppend(a[0], a[1..], mid, b, to);
      assert (a + b)[1..] == a[1..] + b;
    }
  }

  /** The value a flag had before its pending transitions. */
  ghost predicate PendingFrom(s: Inputs, flag: Flag, from: bool)
  {
    Alternates(from, OfFlag(s.transitions, flag), FlagValue(s, flag))
  }

  lemma OfFlagNext(transitions: seq<Transition>, t: Transition, flag: Flag)
    ensures OfFlag(transitions + [t], flag) == OfFlag(transitions, flag) + if t.flag == flag then [t.start] else []
  {
    assert (transitions + [t])[..|transitions|] == transitions;
  }

  lemma OneEdge(from: bool, to: bool)
    requires from != to
    ensures Alternates(from, [to], to)
  {
    assert [to][1..] == [];
  }

  lemma SetFlagAlternates(s: Inputs, changed: Flag, value: bool, flag: Flag, from: bool)
    requires PendingFrom(s, flag, from)
    ensures PendingFrom(SetFlag(s, changed, value), flag, from)
  {
    hide Alternates, OfFlag;
    OfFlagNext(s.transitions, Transition(changed, value), flag);
    if FlagValue(s, changed) != value {
      if changed == flag {
        OneEdge(FlagValue(s, flag), value);
        AlternatesAppend(from, OfFlag(s.transitions, flag), FlagValue(s, flag), [value], value);
      } else {
        assert OfFlag(s.transitions, flag) + [] == OfFlag(s.transitions, flag);
      }
    }
  }

  lemma CallAlternates(s: Inputs, e: Event, flag: Flag, from: bool)
    requires PendingFrom(s, flag, from) && !e.DoStep? && !e.DoReset?
    ensures PendingFrom(Apply(s, e), flag, from)
  {
    match e
    case DoSetFlag(changed, value) => SetFlagAlternates(s, changed, value, flag, from);
    case DoStopAll(reason) =>
      assert PendingFrom(EndAll(s, reason), flag, from);
      SetFlagAlternates(EndAll(s, reason), Sprint, false, flag, from);
      SetFlagAlternates(SetFlag(EndAll(s, reason), Sprint, false), Sneak, false, flag, from);
    case DoStep =>
    case DoReset(reason) =>
    case _ =>
      assert Apply(s, e).transitions == s.transitions && FlagValue(Apply(s, e), flag) == FlagValue(s, flag);
  }

  lemma StepDelivers(s: Inputs, flag: Flag)
    ensures PendingFrom(Apply(s, DoStep), flag, FlagValue(s, flag))
    ensures StepOutput(s).transitions == s.transitions
  {
  }

  lemma {:induction false} EdgesAlternate(s: Inputs, es: seq<Event>, flag: Flag, from: bool)
    requires PendingFrom(s, flag, from)
    requires forall k :: 0 <= k < |es| ==> !es[k].DoReset?
    ensures Alternates(from, Edges(s, es, flag), FlagValue(Run(s, es), flag))
    decreases |es|
  {
    hide Apply, StepOutput;
    if es != [] {
      var next, rest := Apply(s, es[0]), es[1..];
      if es[0].DoStep? {
        StepDelivers(s, flag);
        EdgesAlternate(next, rest, flag, FlagValue(s, flag));
        AlternatesAppend(from, OfFlag(s.transitions, flag), FlagValue(s, flag), Edges(next, rest, flag),
                         FlagValue(Run(s, es), flag));
      } else {
        CallAlternates(s, es[0], flag, from);
        EdgesAlternate(next, rest, flag, from);
        assert Edges(s, es, flag) == Edges(next, rest, flag);
      }
    }
  }

  /**
   * From any reset to before the next one, the transitions of a flag that ticks deliver, followed by those still
   * pending, start with a start, strictly alternate, and end in the flag's value.
   */
  lemma TransitionsAlternate(s: Inputs, reason: Reason, es: seq<Event>, flag: Flag)
    requires forall k :: 0 <= k < |es| ==> !es[k].DoReset?
    ensures Alternates(false, Edges(Reset(s, reason), es, flag), FlagValue(Run(Reset(s, reason), es), flag))
  {
    assert PendingFrom(Reset(s, reason), flag, false);
    EdgesAlternate(Reset(s, reason), es, flag, false);
  }
}
