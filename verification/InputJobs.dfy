/** What every call of the input scheduler keeps: well-formed jobs and conserved job ids. */
module InputJobs {
  import opened Common
  import opened InputModel

  // -- job ids -------------------------------------------------------------------

  function JobCount(jobs: seq<Job>, id: nat): nat
  {
    if jobs == [] then 0 else JobCount(jobs[..|jobs| - 1], id) + if jobs[|jobs| - 1].revision == id then 1 else 0
  }

  function MoveCount(s: Inputs, id: nat): nat { if s.movementJob == Some(id) then 1 else 0 }

  function EndCount(ends: seq<End>, id: nat): nat
  {
    if ends == [] then 0 else EndCount(ends[..|ends| - 1], id) + if ends[|ends| - 1].job == id then 1 else 0
  }

  /** How many places hold a job id: running as an action, running as the movement, or ended. */
  function Held(s: Inputs, id: nat): nat { JobCount(s.jobs, id) + MoveCount(s, id) + EndCount(s.ends, id) }

  // -- the invariant ---------------------------------------------------------------

  predicate Repeating(job: Job) { job.mode == Continuous || job.mode == Interval }

  predicate JobOk(job: Job, tick: nat)
  {
    && (job.mode == Once || Repeating(job))
    && (Repeating(job) ==> job.interval >= 1 && job.next.At?)
    && (job.next.At? ==> job.next.tick > tick)
    && (job.mode == Once && job.hold.None? ==> job.next.At?)
    && (job.endTick.Some? ==> job.endTick.value > tick)
    && (job.duration.Some? ==> job.duration.value >= 1)
    && (job.hold.Some? ==> job.hold.value >= 1)
    && (job.remaining.Some? ==> job.remaining.value >= 1)
  }

  /** Each action has at most one job. */
  ghost predicate Distinct(jobs: seq<Job>)
  {
    forall i, k :: 0 <= i < k < |jobs| ==> jobs[i].action != jobs[k].action
  }

  ghost predicate JobsOk(s: Inputs)
  {
    && (forall i :: 0 <= i < |s.jobs| ==> JobOk(s.jobs[i], s.tick))
    && Distinct(s.jobs)
    && (s.movement.Some? <==> s.movementJob.Some?)
    && (s.movementEnd.Some? ==> s.movementJob.Some? && s.movementEnd.value > s.tick)
  }

  /** A channel's recorded ends are all older than what it runs now. */
  ghost predicate EndsOlder(s: Inputs)
  {
    && (forall k, i | 0 <= k < |s.ends| && 0 <= i < |s.jobs| && s.ends[k].channel == ActionChannel(s.jobs[i].action) ::
          s.ends[k].job < s.jobs[i].revision)
    && (forall k | 0 <= k < |s.ends| && s.ends[k].channel == MoveChannel && s.movementJob.Some? ::
          s.ends[k].job < s.movementJob.value)
  }

  /** Every id issued is held exactly once, and no other id is held. */
  ghost predicate OnePlace(s: Inputs)
  {
    forall id: nat :: Held(s, id) == if 1 <= id <= s.sequence then 1 else 0
  }

  ghost predicate Inv(s: Inputs)
  {
    JobsOk(s) && OnePlace(s) && EndsOlder(s)
  }

  // -- counting --------------------------------------------------------------------

  lemma {:induction false} JobCountAppend(a: seq<Job>, b: seq<Job>, id: nat)
    ensures JobCount(a + b, id) == JobCount(a, id) + JobCount(b, id)
  {
    if b == [] {
      assert a + b == a;
    } else {
      assert (a + b)[..|a + b| - 1] == a + b[..|b| - 1];
      JobCountAppend(a, b[..|b| - 1], id);
    }
  }

  lemma {:induction false} EndCountAppend(a: seq<End>, b: seq<End>, id: nat)
    ensures EndCount(a + b, id) == EndCount(a, id) + EndCount(b, id)
  {
    if b == [] {
      assert a + b == a;
    } else {
      assert (a + b)[..|a + b| - 1] == a + b[..|b| - 1];
      EndCountAppend(a, b[..|b| - 1], id);
    }
  }

  lemma CountOne(job: Job, end: End, id: nat)
    ensures JobCount([], id) == EndCount([], id) == 0
    ensures JobCount([job], id) == if job.revision == id then 1 else 0
    ensures EndCount([end], id) == if end.job == id then 1 else 0
  {
    assert [job][..0] == [] && [end][..0] == [];
  }

  lemma JobCountAt(jobs: seq<Job>, i: nat, id: nat)
    requires i < |jobs|
    ensures JobCount(jobs, id) == JobCount(jobs[..i], id) + JobCount([jobs[i]], id) + JobCount(jobs[i + 1..], id)
  {
    assert jobs == jobs[..i] + ([jobs[i]] + jobs[i + 1..]);
    JobCountAppend(jobs[..i], [jobs[i]] + jobs[i + 1..], id);
    JobCountAppend([jobs[i]], jobs[i + 1..], id);
  }

  lemma JobCountWithout(jobs: seq<Job>, i: nat, id: nat)
    requires i < |jobs|
    ensures JobCount(jobs, id) == JobCount(Without(jobs, i), id) + if jobs[i].revision == id then 1 else 0
  {
    JobCountAt(jobs, i, id);
    JobCountAppend(jobs[..i], jobs[i + 1..], id);
  }

  lemma EndCountAt(ends: seq<End>, i: nat, id: nat)
    requires i < |ends| && ends[i].job == id
    ensures EndCount(ends, id) >= 1
  {
    assert ends == ends[..i] + ([ends[i]] + ends[i + 1..]);
    EndCountAppend(ends[..i], [ends[i]] + ends[i + 1..], id);
    EndCountAppend([ends[i]], ends[i + 1..], id);
  }

  lemma {:induction false} JobCounted(jobs: seq<Job>, id: nat) returns (i: nat)
    requires JobCount(jobs, id) >= 1
    ensures i < |jobs| && jobs[i].revision == id
  {
    if jobs[|jobs| - 1].revision == id { i := |jobs| - 1; } else { i := JobCounted(jobs[..|jobs| - 1], id); }
  }

  lemma {:induction false} EndCounted(ends: seq<End>, id: nat) returns (i: nat)
    requires EndCount(ends, id) >= 1
    ensures i < |ends| && ends[i].job == id
  {
    if ends[|ends| - 1].job == id { i := |ends| - 1; } else { i := EndCounted(ends[..|ends| - 1], id); }
  }

  lemma RevisionsDiffer(s: Inputs)
    requires OnePlace(s)
    ensures forall i, k :: 0 <= i < k < |s.jobs| ==> s.jobs[i].revision != s.jobs[k].revision
  {
    forall i, k | 0 <= i < k < |s.jobs| ensures s.jobs[i].revision != s.jobs[k].revision {
      var id := s.jobs[i].revision;
      JobCountAt(s.jobs, k, id);
      JobCountAt(s.jobs[..k], i, id);
      assert Held(s, id) <= 1;
    }
  }

  lemma JobIssued(s: Inputs, i: nat)
    requires OnePlace(s) && i < |s.jobs|
    ensures 1 <= s.jobs[i].revision <= s.sequence
  {
    JobCountAt(s.jobs, i, s.jobs[i].revision);
    assert Held(s, s.jobs[i].revision) >= 1;
  }

  lemma IdsIssued(s: Inputs)
    requires OnePlace(s)
    ensures forall i :: 0 <= i < |s.jobs| ==> 1 <= s.jobs[i].revision <= s.sequence
    ensures forall k :: 0 <= k < |s.ends| ==> 1 <= s.ends[k].job <= s.sequence
    ensures s.movementJob.Some? ==> 1 <= s.movementJob.value <= s.sequence
  {
    forall i | 0 <= i < |s.jobs| ensures 1 <= s.jobs[i].revision <= s.sequence { JobIssued(s, i); }
    forall k | 0 <= k < |s.ends| ensures 1 <= s.ends[k].job <= s.sequence {
      EndCountAt(s.ends, k, s.ends[k].job);
      assert Held(s, s.ends[k].job) >= 1;
    }
    if s.movementJob.Some? { assert Held(s, s.movementJob.value) >= 1; }
  }

  lemma {:induction false} EndsOfCount(jobs: seq<Job>, reason: Reason, id: nat)
    ensures EndCount(EndsOf(jobs, reason), id) == JobCount(jobs, id)
  {
    if jobs != [] { EndsOfCount(jobs[..|jobs| - 1], reason, id); }
  }

  lemma {:induction false} EndsOfAt(jobs: seq<Job>, reason: Reason)
    ensures forall k :: 0 <= k < |jobs| ==> EndsOf(jobs, reason)[k] == EndOf(jobs[k], reason)
  {
    if jobs != [] { EndsOfAt(jobs[..|jobs| - 1], reason); }
  }

  // -- each operation keeps the invariant ----------------------------------------------

  lemma EndActionKeeps(s: Inputs, action: Action, reason: Reason)
    requires Inv(s)
    ensures Inv(EndAction(s, action, reason))
    ensures Find(EndAction(s, action, reason).jobs, action) == |EndAction(s, action, reason).jobs|
  {
    var i := Find(s.jobs, action);
    var r := EndAction(s, action, reason);
    if i < |s.jobs| {
      EndHeld(s, i, reason);
      EndOlder(s, i, reason);
      hide OnePlace, EndsOlder, JobOk;
      WithoutKeeps(s.jobs, i, s.tick);
      assert r.jobs == Without(s.jobs, i);
    }
  }

  lemma WithoutKeeps(jobs: seq<Job>, i: nat, tick: nat)
    requires i < |jobs| && Distinct(jobs) && forall k :: 0 <= k < |jobs| ==> JobOk(jobs[k], tick)
    ensures var r := Without(jobs, i);
      && Distinct(r) && (forall k :: 0 <= k < |r| ==> JobOk(r[k], tick) && r[k].action != jobs[i].action)
  {
    hide JobOk;
    var r := Without(jobs, i);
    assert |r| == |jobs| - 1;
    forall k | 0 <= k < |r| ensures r[k] == jobs[if k < i then k else k + 1] {}
  }


  lemma EndHeld(s: Inputs, i: nat, reason: Reason)
    requires OnePlace(s) && i < |s.jobs|
    ensures OnePlace(s.(jobs := Without(s.jobs, i), ends := s.ends + [EndOf(s.jobs[i], reason)]))
  {
    var r := s.(jobs := Without(s.jobs, i), ends := s.ends + [EndOf(s.jobs[i], reason)]);
    forall id: nat ensures Held(r, id) == if 1 <= id <= r.sequence then 1 else 0 {
      JobCountWithout(s.jobs, i, id);
      EndCountAppend(s.ends, [EndOf(s.jobs[i], reason)], id);
      CountOne(s.jobs[i], EndOf(s.jobs[i], reason), id);
      assert MoveCount(r, id) == MoveCount(s, id);
      assert Held(r, id) == Held(s, id);
    }
  }

  lemma EndOlder(s: Inputs, i: nat, reason: Reason)
    requires JobsOk(s) && EndsOlder(s) && i < |s.jobs|
    ensures EndsOlder(s.(jobs := Without(s.jobs, i), ends := s.ends + [EndOf(s.jobs[i], reason)]))
  {
    var jobs, ends := Without(s.jobs, i), s.ends + [EndOf(s.jobs[i], reason)];
    forall k, j | 0 <= k < |ends| && 0 <= j < |jobs| && ends[k].channel == ActionChannel(jobs[j].action)
      ensures ends[k].job < jobs[j].revision
    {
      assert jobs[j] == s.jobs[if j < i then j else j + 1];
      if k < |s.ends| { assert ends[k] == s.ends[k]; }
    }
  }

  lemma StartKeeps(s: Inputs, job: Job)
    requires Inv(s) && JobOk(job, s.tick) && job.revision == s.sequence + 1
    requires Find(s.jobs, job.action) == |s.jobs|
    ensures Inv(s.(jobs := s.jobs + [job], sequence := s.sequence + 1))
  {
    var r := s.(jobs := s.jobs + [job], sequence := s.sequence + 1);
    IdsIssued(s);
    forall id: nat ensures Held(r, id) == if 1 <= id <= r.sequence then 1 else 0 {
      assert Held(r, id) == Held(s, id) + if job.revision == id then 1 else 0;
    }
    assert EndsOlder(r);
  }

  /** Changing a job without touching its id or action. */
  lemma TouchKeeps(s: Inputs, i: nat, job: Job)
    requires Inv(s) && i < |s.jobs| && JobOk(job, s.tick)
    requires job.revision == s.jobs[i].revision && job.action == s.jobs[i].action
    ensures Inv(s.(jobs := s.jobs[i := job]))
  {
    var r := s.(jobs := s.jobs[i := job]);
    forall id: nat ensures Held(r, id) == if 1 <= id <= r.sequence then 1 else 0 {
      JobCountAt(s.jobs, i, id);
      JobCountAt(r.jobs, i, id);
      assert Held(r, id) == Held(s, id);
    }
  }

  lemma HaltedHeld(s: Inputs, reason: Reason)
    requires OnePlace(s)
    ensures OnePlace(Halted(s, reason))
  {
    var r := Halted(s, reason);
    forall id: nat ensures Held(r, id) == if 1 <= id <= r.sequence then 1 else 0 {
      EndCountAppend(s.ends, r.ends[|s.ends|..], id);
      assert r.ends == s.ends + r.ends[|s.ends|..];
      assert Held(r, id) == Held(s, id);
    }
  }

  lemma MoveKeeps(s: Inputs, direction: Direction, end: Option<nat>)
    requires Inv(s) && s.movementJob.None? && s.movement.None?
    requires end.Some? ==> end.value > s.tick
    ensures Inv(s.(movement := Some(direction), movementJob := Some(s.sequence + 1), movementEnd := end,
                   sequence := s.sequence + 1))
  {
    var r := s.(movement := Some(direction), movementJob := Some(s.sequence + 1), movementEnd := end,
                sequence := s.sequence + 1);
    IdsIssued(s);
    forall id: nat ensures Held(r, id) == if 1 <= id <= r.sequence then 1 else 0 {
      assert Held(r, id) == Held(s, id) + if id == s.sequence + 1 then 1 else 0;
    }
  }

  lemma {:induction false} SplitByTarget(jobs: seq<Job>, id: nat)
    ensures JobCount(jobs, id) == JobCount(Untargeted(jobs), id) + JobCount(Targeted(jobs), id)
  {
    if jobs != [] {
      var before, last := jobs[..|jobs| - 1], jobs[|jobs| - 1];
      SplitByTarget(before, id);
      JobCountAppend(Untargeted(before), if last.target.Some? then [] else [last], id);
      JobCountAppend(Targeted(before), if last.target.Some? then [last] else [], id);
    }
  }

  lemma {:induction false} SplitMembers(jobs: seq<Job>)
    ensures forall i :: 0 <= i < |Untargeted(jobs)| ==> Untargeted(jobs)[i] in jobs && Untargeted(jobs)[i].target.None?
    ensures forall i :: 0 <= i < |Targeted(jobs)| ==> Targeted(jobs)[i] in jobs && Targeted(jobs)[i].target.Some?
  {
    if jobs != [] {
      SplitMembers(jobs[..|jobs| - 1]);
      assert jobs == jobs[..|jobs| - 1] + [jobs[|jobs| - 1]];
    }
  }

  lemma {:induction false} UntargetedDistinct(jobs: seq<Job>)
    requires Distinct(jobs)
    ensures Distinct(Untargeted(jobs))
  {
    if jobs != [] {
      var before := jobs[..|jobs| - 1];
      UntargetedDistinct(before);
      SplitMembers(before);
      forall i | 0 <= i < |Untargeted(before)| ensures Untargeted(before)[i].action != jobs[|jobs| - 1].action {
        var n :| 0 <= n < |before| && before[n] == Untargeted(before)[i];
      }
    }
  }

  lemma StopTargetedKeeps(s: Inputs, reason: Reason)
    requires Inv(s)
    ensures Inv(StopTargeted(s, reason))
  {
    var r, gone := StopTargeted(s, reason), Targeted(s.jobs);
    SplitMembers(s.jobs);
    UntargetedDistinct(s.jobs);
    forall id: nat ensures Held(r, id) == if 1 <= id <= r.sequence then 1 else 0 {
      SplitByTarget(s.jobs, id);
      EndsOfCount(gone, reason, id);
      EndCountAppend(s.ends, EndsOf(gone, reason), id);
      assert Held(r, id) == Held(s, id);
    }
    StopTargetedOlder(s, reason);
  }

  lemma StopTargetedOlder(s: Inputs, reason: Reason)
    requires JobsOk(s) && EndsOlder(s)
    ensures EndsOlder(StopTargeted(s, reason))
  {
    var r, gone := StopTargeted(s, reason), Targeted(s.jobs);
    SplitMembers(s.jobs);
    EndsOfAt(gone, reason);
    forall k, i | 0 <= k < |r.ends| && 0 <= i < |r.jobs| && r.ends[k].channel == ActionChannel(r.jobs[i].action)
      ensures r.ends[k].job < r.jobs[i].revision
    {
      var n :| 0 <= n < |s.jobs| && s.jobs[n] == r.jobs[i];
      if k < |s.ends| { assert r.ends[k] == s.ends[k]; }
    }
  }

  lemma EndAllKeeps(s: Inputs, reason: Reason)
    requires Inv(s)
    ensures Inv(EndAll(s, reason))
  {
    var cleared := s.(jobs := [], ends := s.ends + EndsOf(s.jobs, reason));
    forall id: nat ensures Held(cleared, id) == if 1 <= id <= s.sequence then 1 else 0 {
      EndsOfCount(s.jobs, reason, id);
      EndCountAppend(s.ends, EndsOf(s.jobs, reason), id);
      assert Held(cleared, id) == Held(s, id);
    }
    HaltedHeld(cleared, reason);
  }

  // -- one tick keeps it ---------------------------------------------------------------

  lemma SweepOneCount(job: Job, tick: nat, id: nat)
    ensures JobCount(SweepJob(job, tick).kept, id) + EndCount(SweepJob(job, tick).ended, id)
            == if job.revision == id then 1 else 0
  {
    var b := SweepJob(job, tick);
    if b.kept == [] { CountOne(job, b.ended[0], id); } else { CountOne(b.kept[0], EndOf(job, Completed), id); }
  }

  lemma {:induction false} SweepCount(jobs: seq<Job>, tick: nat, id: nat)
    ensures JobCount(jobs, id) == JobCount(Sweep(jobs, tick).kept, id) + EndCount(Sweep(jobs, tick).ended, id)
  {
    if jobs != [] {
      var before, last := jobs[..|jobs| - 1], jobs[|jobs| - 1];
      var a, b := Sweep(before, tick), SweepJob(last, tick);
      SweepCount(before, tick, id);
      JobCountAppend(a.kept, b.kept, id);
      EndCountAppend(a.ended, b.ended, id);
      SweepOneCount(last, tick, id);
    }
  }

  /** Where the results of a sweep come from: each element from one job. */
  lemma {:induction false} KeptFrom(jobs: seq<Job>, tick: nat, k: nat) returns (i: nat)
    requires k < |Sweep(jobs, tick).kept|
    ensures i < |jobs| && SweepJob(jobs[i], tick).kept == [Sweep(jobs, tick).kept[k]]
  {
    if k < |Sweep(jobs[..|jobs| - 1], tick).kept| { i := KeptFrom(jobs[..|jobs| - 1], tick, k); }
    else { i := |jobs| - 1; }
  }

  lemma {:induction false} EndedFrom(jobs: seq<Job>, tick: nat, k: nat) returns (i: nat)
    requires k < |Sweep(jobs, tick).ended|
    ensures i < |jobs| && SweepJob(jobs[i], tick).ended == [Sweep(jobs, tick).ended[k]]
  {
    if k < |Sweep(jobs[..|jobs| - 1], tick).ended| { i := EndedFrom(jobs[..|jobs| - 1], tick, k); }
    else { i := |jobs| - 1; }
  }

  lemma {:induction false} FiredFrom(jobs: seq<Job>, tick: nat, k: nat) returns (i: nat)
    requires k < |Sweep(jobs, tick).fired|
    ensures i < |jobs| && SweepJob(jobs[i], tick).fired == [Sweep(jobs, tick).fired[k]]
  {
    if k < |Sweep(jobs[..|jobs| - 1], tick).fired| { i := FiredFrom(jobs[..|jobs| - 1], tick, k); }
    else { i := |jobs| - 1; }
  }

  /** A sweep loses nothing of what it does to a job. */
  lemma {:induction false} SweepOf(jobs: seq<Job>, tick: nat, i: nat)
    requires i < |jobs|
    ensures forall j :: j in SweepJob(jobs[i], tick).kept ==> j in Sweep(jobs, tick).kept
    ensures forall e :: e in SweepJob(jobs[i], tick).ended ==> e in Sweep(jobs, tick).ended
    ensures forall j :: j in SweepJob(jobs[i], tick).fired ==> j in Sweep(jobs, tick).fired
  {
    if i < |jobs| - 1 { SweepOf(jobs[..|jobs| - 1], tick, i); }
  }

  lemma {:induction false} SweepDistinct(jobs: seq<Job>, tick: nat)
    requires Distinct(jobs)
    ensures Distinct(Sweep(jobs, tick).kept)
  {
    if jobs != [] {
      var before, last := jobs[..|jobs| - 1], jobs[|jobs| - 1];
      SweepDistinct(before, tick);
      var a, kept := Sweep(before, tick).kept, Sweep(jobs, tick).kept;
      assert kept == a + SweepJob(last, tick).kept;
      forall i, k | 0 <= i < k < |kept| ensures kept[i].action != kept[k].action {
        if k < |a| {
          assert kept[i] == a[i] && kept[k] == a[k];
        } else {
          var n := KeptFrom(before, tick, i);
          assert before[n] == jobs[n] && kept[i] == a[i];
          assert kept[i].action == jobs[n].action && kept[k].action == last.action;
        }
      }
    }
  }

  lemma StepHeld(s: Inputs)
    requires OnePlace(s)
    ensures OnePlace(Step(s))
  {
    var ticked, b, r := s.(tick := s.tick + 1), BeginStep(s), Step(s);
    forall id: nat ensures Held(ticked, id) == if 1 <= id <= s.sequence then 1 else 0 {
      assert Held(ticked, id) == Held(s, id);
    }
    HaltedHeld(ticked, DurationElapsed);
    forall id: nat ensures Held(r, id) == if 1 <= id <= r.sequence then 1 else 0 {
      SweepCount(s.jobs, b.tick, id);
      EndCountAppend(b.ends, Sweep(s.jobs, b.tick).ended, id);
      assert Held(r, id) == Held(b, id);
    }
  }

  lemma StepJobs(s: Inputs)
    requires JobsOk(s)
    ensures JobsOk(Step(s))
  {
    var tick, r := s.tick + 1, Step(s);
    SweepDistinct(s.jobs, tick);
    assert r.jobs == Sweep(s.jobs, tick).kept;
    forall i | 0 <= i < |r.jobs| ensures JobOk(r.jobs[i], r.tick) {
      var n := KeptFrom(s.jobs, tick, i);
      assert JobOk(s.jobs[n], s.tick);
    }
  }

  lemma StepOlder(s: Inputs)
    requires JobsOk(s) && EndsOlder(s)
    ensures EndsOlder(Step(s))
  {
    var r := Step(s);
    StepMoveOlder(s);
    forall k, i | 0 <= k < |r.ends| && 0 <= i < |r.jobs| && r.ends[k].channel == ActionChannel(r.jobs[i].action)
      ensures r.ends[k].job < r.jobs[i].revision
    {
      StepJobOlder(s, k, i);
    }
  }

  lemma StepJobOlder(s: Inputs, k: nat, i: nat)
    requires JobsOk(s) && EndsOlder(s)
    requires var r := Step(s); k < |r.ends| && i < |r.jobs| && r.ends[k].channel == ActionChannel(r.jobs[i].action)
    ensures Step(s).ends[k].job < Step(s).jobs[i].revision
  {
    hide Sweep, JobOk;
    var b, r := BeginStep(s), Step(s);
    var n := KeptFrom(s.jobs, b.tick, i);
    assert r.jobs[i].action == s.jobs[n].action && r.jobs[i].revision == s.jobs[n].revision;
    if k < |b.ends| {
      assert k < |s.ends| ==> b.ends[k] == s.ends[k];
    } else {
      var m := EndedFrom(s.jobs, b.tick, k - |b.ends|);
    }
  }

  lemma StepMoveOlder(s: Inputs)
    requires JobsOk(s) && EndsOlder(s)
    ensures var r := Step(s);
      forall k | 0 <= k < |r.ends| && r.ends[k].channel == MoveChannel && r.movementJob.Some? ::
        r.ends[k].job < r.movementJob.value
  {
    hide JobOk, Distinct, Sweep;
    var b, r := BeginStep(s), Step(s);
    forall k | 0 <= k < |r.ends| && r.ends[k].channel == MoveChannel && r.movementJob.Some?
      ensures r.ends[k].job < r.movementJob.value
    {
      if k < |b.ends| { assert b.ends == s.ends; } else { var m := EndedFrom(s.jobs, b.tick, k - |b.ends|); }
    }
  }

  // -- every event ---------------------------------------------------------------------

  lemma NewJobOk(s: Inputs, r: Request)
    requires Refusal(r).None? && r.mode != Stop
    ensures JobOk(NewJob(s, r), s.tick)
  {
  }

  lemma EndActionFrame(s: Inputs, action: Action, reason: Reason)
    ensures var r := EndAction(s, action, reason); r == s.(jobs := r.jobs, ends := r.ends)
  {
  }

  lemma SetActionKeeps(s: Inputs, r: Request)
    requires Inv(s)
    ensures Inv(Apply(s, DoSetAction(r)))
  {
    hide Inv, EndAction, Find;
    if Refusal(r).None? {
      if r.mode == Stop {
        EndActionKeeps(s, r.action, r.reason);
      } else {
        EndActionKeeps(s, r.action, Replaced);
        EndActionFrame(s, r.action, Replaced);
        NewJobOk(s, r);
        StartKeeps(EndAction(s, r.action, Replaced), NewJob(s, r));
      }
    }
  }

  lemma CountHitKeeps(s: Inputs, action: Action, revision: nat)
    requires Inv(s)
    ensures Inv(CountHit(s, action, revision))
  {
    hide OnePlace, EndsOlder, Distinct;
    var i := Find(s.jobs, action);
    if i < |s.jobs| && s.jobs[i].revision == revision && s.jobs[i].remaining.Some? {
      assert JobOk(s.jobs[i], s.tick);
      hide Inv, Find;
      var job := s.jobs[i].(remaining := Some(s.jobs[i].remaining.value - 1));
      if job.remaining.value >= 1 {
        TouchKeeps(s, i, job);
      } else {
        LastHitKeeps(s, i, job);
      }
    }
  }

  /** A job that has reached zero is removed at once, so it never stays behind malformed. */
  lemma LastHitKeeps(s: Inputs, i: nat, job: Job)
    requires Inv(s) && i < |s.jobs| && i == Find(s.jobs, job.action)
    requires job.action == s.jobs[i].action && job.revision == s.jobs[i].revision
    ensures Inv(EndAction(s.(jobs := s.jobs[i := job]), job.action, CountReached))
  {
    hide Inv, Find;
    var counted := s.(jobs := s.jobs[i := job]);
    FindTouched(s.jobs, i, job);
    assert Without(counted.jobs, i) == Without(s.jobs, i);
    assert EndAction(counted, job.action, CountReached) == EndAction(s, job.action, CountReached);
    EndActionKeeps(s, job.action, CountReached);
  }

  lemma {:induction false} FindTouched(jobs: seq<Job>, i: nat, job: Job)
    requires i < |jobs| && i == Find(jobs, job.action)
    ensures Find(jobs[i := job], job.action) == i
  {
    if i > 0 {
      FindTouched(jobs[1..], i - 1, job);
      assert jobs[i := job][1..] == jobs[1..][i - 1 := job];
    }
  }

  lemma StartTimedUseKeeps(s: Inputs, revision: nat)
    requires Inv(s)
    ensures Inv(StartTimedUse(s, revision))
  {
    var i := Find(s.jobs, Use);
    if i < |s.jobs| && s.jobs[i].revision == revision && s.jobs[i].duration.Some? && s.jobs[i].endTick.None? {
      TouchKeeps(s, i, s.jobs[i].(endTick := Some(s.tick + s.jobs[i].duration.value)));
    }
  }

  lemma SetMovementKeeps(s: Inputs, direction: Direction, duration: Option<int>, reason: Reason)
    requires Inv(s)
    ensures Inv(Apply(s, DoSetMovement(direction, duration, reason)))
  {
    if MovementRefusal(direction, duration).None? {
      var why := if direction == Halt then reason else Replaced;
      HaltedHeld(s, why);
      assert Inv(Halted(s, why));
      if direction != Halt {
        MoveKeeps(Halted(s, why), direction, if duration.Some? then Some(s.tick + 1 + duration.value) else None);
      }
    }
  }

  /** States that differ only in ticking counters and flags hold the same ids. */
  lemma SameIds(s: Inputs, r: Inputs)
    requires Inv(s)
    requires r.jobs == s.jobs && r.movementJob == s.movementJob && r.ends == s.ends && r.sequence == s.sequence
    requires r.tick == s.tick && r.movement == s.movement && r.movementEnd == s.movementEnd
    ensures Inv(r)
  {
    forall id: nat ensures Held(r, id) == if 1 <= id <= r.sequence then 1 else 0 {
      assert Held(r, id) == Held(s, id);
    }
  }

  lemma StepKeeps(s: Inputs)
    requires Inv(s)
    ensures Inv(Step(s))
  {
    StepHeld(s);
    StepJobs(s);
    StepOlder(s);
  }

  lemma SetFlagKeeps(s: Inputs, flag: Flag, value: bool)
    requires Inv(s)
    ensures Inv(SetFlag(s, flag, value))
  {
    SameIds(s, SetFlag(s, flag, value));
  }

  /** Every call, accepted or refused, keeps the invariant. */
  lemma ApplyKeeps(s: Inputs, e: Event)
    requires Inv(s)
    ensures Inv(Apply(s, e))
  {
    hide Inv, EndAction, EndAll, SetFlag, Step, CountHit, StartTimedUse, StopTargeted;
    match e
    case DoSetAction(request) => SetActionKeeps(s, request);
    case DoStopTargeted(reason) => StopTargetedKeeps(s, reason);
    case DoCountHit(action, revision) => CountHitKeeps(s, action, revision);
    case DoStartTimedUse(revision) => StartTimedUseKeeps(s, revision);
    case DoFinishHold(revision) => EndActionKeeps(s, Use, Completed);
    case DoCancelTimedUse(reason) => EndActionKeeps(s, Use, reason);
    case DoSetMovement(direction, duration, reason) => SetMovementKeeps(s, direction, duration, reason);
    case DoSetFlag(flag, value) => SetFlagKeeps(s, flag, value);
    case DoTeleported => SameIds(s, Apply(s, e));
    case DoStopAll(reason) =>
      EndAllKeeps(s, reason);
      SetFlagKeeps(EndAll(s, reason), Sprint, false);
      SetFlagKeeps(SetFlag(EndAll(s, reason), Sprint, false), Sneak, false);
    case DoReset(reason) =>
      EndAllKeeps(s, reason);
      SameIds(EndAll(s, reason), Reset(s, reason));
    case DoStep => StepKeeps(s);
  }

  lemma {:induction false} RunKeeps(s: Inputs, es: seq<Event>)
    requires Inv(s)
    ensures Inv(Run(s, es))
    decreases |es|
  {
    if es != [] {
      ApplyKeeps(s, es[0]);
      RunKeeps(Apply(s, es[0]), es[1..]);
    }
  }

  lemma EmptyOk()
    ensures Inv(EMPTY)
  {
  }

  /**
   * Over every run from a new scheduler: each id ever issued is in exactly one place, running on one channel or
   * ended once, no other id is anywhere, and a channel's recorded ends are older than what it runs.
   */
  lemma JobIdsConserved(es: seq<Event>, id: nat)
    ensures var s := Run(EMPTY, es);
            && JobCount(s.jobs, id) + MoveCount(s, id) + EndCount(s.ends, id)
               == (if 1 <= id <= s.sequence then 1 else 0)
            && EndsOlder(s)
            && Distinct(s.jobs)
  {
    EmptyOk();
    RunKeeps(EMPTY, es);
    assert Held(Run(EMPTY, es), id) == if 1 <= id <= Run(EMPTY, es).sequence then 1 else 0;
  }

  /** In every reachable state no reported remaining time is negative. */
  lemma RemainingNeverNegative(es: seq<Event>)
    ensures var s := Run(EMPTY, es);
            && (MovementRemaining(s).Some? ==> MovementRemaining(s).value >= 0)
            && (forall i :: 0 <= i < |s.jobs| ==>
                  JobRemaining(s, s.jobs[i]).Some? ==> JobRemaining(s, s.jobs[i]).value >= 0)
  {
    EmptyOk();
    RunKeeps(EMPTY, es);
    var s := Run(EMPTY, es);
    forall i | 0 <= i < |s.jobs| ensures JobRemaining(s, s.jobs[i]).Some? ==> JobRemaining(s, s.jobs[i]).value >= 0 {
      assert JobOk(s.jobs[i], s.tick);
    }
  }
}
