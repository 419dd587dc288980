/** The block breaking of one session (runtime/src/protocol-session.js) as operations on values. */
module Mining {
  import opened Common

  const LEASE_TICKS: nat := 200
  const JOB_TICKS: nat := 12000
  const MAX_BUDGET: int := 72000
  const WORLD_LIMIT: int := 30000000

  datatype Place = Place(x: int, y: int, z: int)

  /** What a command aims at; the session checks it before anything changes. */
  datatype Target = Target(place: Place, blockId: int, face: int)

  datatype JobState = Active | Canceled | Failed | Completed

  /** `blocksBroken` and `blockCount` are what a loop that has ended leaves on its last job. */
  datatype Job = Job(state: JobState, reason: string, place: Option<Place>, blockId: int, face: int, ticks: nat,
                     blocksBroken: Option<nat>, blockCount: Option<nat>)

  datatype Loop = Loop(id: nat, lease: nat, broken: nat, remaining: Option<int>, count: Option<nat>)

  datatype Action = StartBreak(place: Place, face: int) | AbortBreak(place: Place, face: int)

  datatype Mining = Mining(job: Option<Job>, loop: Option<Loop>, pending: seq<Action>)

  const IDLE := Mining(None, None, [])

  datatype Error = BadDuration | BadCount | NotOnline | BadPlace | BadFace | BadBlock | OtherDimension | OutOfReach

  /** What the session knows of its surroundings when a command arrives. */
  datatype Surroundings = Surroundings(available: bool, sameDimension: bool, inReach: bool)

  predicate IsActive(m: Mining) { m.job.Some? && m.job.value.state == Active }

  function WithoutStarts(pending: seq<Action>): seq<Action>
  {
    if pending == [] then []
    else (if pending[0].StartBreak? then [] else [pending[0]]) + WithoutStarts(pending[1..])
  }

  /** What taking a job off the wire queues: an abort once it was sent, else its start is withdrawn. */
  function Withdrawn(pending: seq<Action>, job: Job): seq<Action>
  {
    if job.ticks > 0 && job.place.Some? then pending + [AbortBreak(job.place.value, job.face)]
    else WithoutStarts(pending)
  }

  function Carried(job: Job, loop: Loop): Job
  {
    job.(blocksBroken := Some(loop.broken), blockCount := if loop.count.Some? then loop.count else job.blockCount)
  }

  const NO_JOB := Job(Canceled, "", None, 0, 0, 0, None, None)

  function StopMining(m: Mining, reason: string, state: JobState, discard: bool, preserveLoop: bool): Mining
  {
    var ending := m.loop.Some? && !preserveLoop;
    var stopped := if IsActive(m) then Some(m.job.value.(state := state, reason := reason)) else m.job;
    var job := if ending
               then Some(Carried((if stopped.Some? then stopped.value else NO_JOB).(state := state, reason := reason),
                                 m.loop.value))
               else stopped;
    var pending := if discard then [] else if IsActive(m) then Withdrawn(m.pending, m.job.value) else m.pending;
    Mining(job, if preserveLoop then m.loop else None, pending)
  }

  function BudgetRefusal(duration: Option<int>, count: Option<int>, available: bool): Option<Error>
  {
    if duration.Some? && !(1 <= duration.value <= MAX_BUDGET) then Some(BadDuration)
    else if count.Some? && !(1 <= count.value <= MAX_BUDGET) then Some(BadCount)
    else if !available then Some(NotOnline)
    else None
  }

  function StartLoop(m: Mining, duration: Option<int>, count: Option<int>, available: bool, id: nat)
    : Result<Mining, Error>
  {
    if BudgetRefusal(duration, count, available).Some? then Err(BudgetRefusal(duration, count, available).value)
    else
      var stopped := StopMining(m, "continuous mining restarted", Canceled, false, false);
      Ok(stopped.(job := None,
                  loop := Some(Loop(id, 0, 0, duration, if count.Some? then Some(count.value) else None))))
  }

  function TargetRefusal(t: Target, s: Surroundings): Option<Error>
  {
    if !s.available then Some(NotOnline)
    else if !(-WORLD_LIMIT <= t.place.x <= WORLD_LIMIT && -WORLD_LIMIT <= t.place.y <= WORLD_LIMIT
              && -WORLD_LIMIT <= t.place.z <= WORLD_LIMIT) then Some(BadPlace)
    else if !(0 <= t.face <= 5) then Some(BadFace)
    else if t.blockId < 0 then Some(BadBlock)
    else if !s.sameDimension then Some(OtherDimension)
    else if !s.inReach then Some(OutOfReach)
    else None
  }

  predicate SameTarget(m: Mining, t: Target)
  {
    IsActive(m) && m.job.value.blockId == t.blockId && m.job.value.place == Some(t.place)
  }

  /** Starts one block; a loop's target carries the loop's id, a plain command ends any loop. */
  function StartMining(m: Mining, t: Target, loopId: Option<nat>, s: Surroundings): Result<Mining, Error>
  {
    if loopId.Some? && (m.loop.None? || m.loop.value.id != loopId.value) then Ok(m)
    else if TargetRefusal(t, s).Some? then Err(TargetRefusal(t, s).value)
    else
      var own := if loopId.None? then m.(loop := None) else m;
      if SameTarget(own, t) then Ok(own)
      else
        var stopped := StopMining(own, "target changed", Canceled, false, loopId.Some?);
        Ok(stopped.(job := Some(Job(Active, "waiting for BDS", Some(t.place), t.blockId, t.face, 0, None, None)),
                    pending := stopped.pending + [StartBreak(t.place, t.face)]))
  }

  /** Renews the lease of the loop it names, with a target or without one; any other loop id changes nothing. */
  function ContinueMining(m: Mining, loopId: nat, t: Option<Target>, s: Surroundings): Result<Mining, Error>
  {
    if m.loop.None? || m.loop.value.id != loopId then Ok(m)
    else
      var started := if t.Some? then StartMining(m, t.value, Some(loopId), s) else Ok(m);
      if started.Err? then started
      else Ok(if started.value.loop.Some? then started.value.(loop := Some(started.value.loop.value.(lease := 0)))
              else started.value)
  }

  function RestartMining(m: Mining): Mining
  {
    if !IsActive(m) || m.job.value.place.None? then m
    else
      m.(pending := Withdrawn(m.pending, m.job.value) + [StartBreak(m.job.value.place.value, m.job.value.face)],
         job := Some(m.job.value.(ticks := 0)))
  }

  function CompleteMining(m: Mining): Mining
  {
    var stopped := StopMining(m, "BDS changed target block", Completed, false, true);
    if stopped.loop.None? then stopped
    else
      var loop := stopped.loop.value.(broken := stopped.loop.value.broken + 1);
      var counted := stopped.(loop := Some(loop));
      if loop.count.Some? && loop.broken >= loop.count.value
      then StopMining(counted, "block count reached", Completed, false, false)
      else counted
  }

  function Leased(m: Mining): Mining
  {
    if m.loop.None? then m
    else
      var aged := m.(loop := Some(m.loop.value.(lease := m.loop.value.lease + 1)));
      if aged.loop.value.lease >= LEASE_TICKS
      then StopMining(aged, "mining controller timed out", Failed, false, false) else aged
  }

  function Timed(m: Mining): Mining
  {
    if m.loop.None? || m.loop.value.remaining.None? then m
    else
      var left := m.loop.value.remaining.value;
      var aged := m.(loop := Some(m.loop.value.(remaining := Some(left - 1))));
      if left <= 0 then StopMining(aged, "duration elapsed", Completed, false, false) else aged
  }

  function Worked(m: Mining, inReach: bool): Mining
  {
    if !IsActive(m) then m
    else if !inReach then StopMining(m, "target moved out of reach", Failed, false, true)
    else if m.job.value.ticks >= JOB_TICKS
    then StopMining(m, "timed out waiting for BDS to change target", Failed, false, true)
    else m.(job := Some(m.job.value.(ticks := m.job.value.ticks + 1)))
  }

  /** One tick before its queued actions are handed over, and the actions it hands over. */
  function Ticked(m: Mining, inReach: bool): Mining { Worked(Timed(Leased(m)), inReach) }

  // -- runs ------------------------------------------------------------------------------

  datatype Event =
    | DoStartLoop(duration: Option<int>, count: Option<int>, available: bool, id: nat)
    | DoContinue(loopId: nat, target: Option<Target>, around: Surroundings)
    | DoStart(single: Target, here: Surroundings)
    | DoStop(only: Option<nat>, reason: string)
    | DoRestart
    | DoBlockUpdate(place: Place, blockId: int)
    | DoTeleported
    | DoDiscard(reason: string, preserveLoop: bool)
    | DoTick(inReach: bool)

  function OkOr(r: Result<Mining, Error>, m: Mining): Mining { if r.Ok? then r.value else m }

  function Apply(m: Mining, e: Event): Mining
  {
    match e
    case DoStartLoop(duration, count, available, id) => OkOr(StartLoop(m, duration, count, available, id), m)
    case DoContinue(loopId, target, around) => OkOr(ContinueMining(m, loopId, target, around), m)
    case DoStart(single, here) => OkOr(StartMining(m, single, None, here), m)
    case DoStop(only, reason) =>
      if only.None? || (m.loop.Some? && m.loop.value.id == only.value)
      then StopMining(m, reason, Canceled, false, false) else m
    case DoRestart => RestartMining(m)
    case DoBlockUpdate(place, blockId) =>
      if IsActive(m) && m.job.value.place == Some(place) && m.job.value.blockId != blockId then CompleteMining(m) else m
    case DoTeleported => StopMining(m, "teleported", Canceled, false, true)
    case DoDiscard(reason, preserveLoop) => StopMining(m, reason, Canceled, true, preserveLoop)
    case DoTick(inReach) => Ticked(m, inReach).(pending := [])
  }

  /** The block actions an event sends to the server. */
  function Sends(m: Mining, e: Event): seq<Action> { if e.DoTick? then Ticked(m, e.inReach).pending else [] }

  function Run(m: Mining, es: seq<Event>): Mining
    decreases |es|
  {
    if es == [] then m else Run(Apply(m, es[0]), es[1..])
  }
}
