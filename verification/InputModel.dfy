/** The input scheduler of one Bot (runtime/src/actions.js) as operations on values. */
module InputModel {
  import opened Common

  const MAX_TICKS: nat := 72000
  const MAX_COUNT: nat := 10000

  datatype Action = Jump | Attack | Use | Interact | UnknownAction
  datatype Mode = Once | Continuous | Interval | Stop | UnknownMode
  datatype Direction = Forward | Backward | Left | Right | Halt | UnknownDirection
  datatype Flag = Sprint | Sneak
  datatype Reason = Stopped | Replaced | Completed | DurationElapsed | CountReached | Canceled | DimensionChanged
                  | Disconnected | OtherReason(text: string)
  datatype Error = UnsupportedAction | NeedsTarget | NoTargetAllowed | BadCount | UnsupportedMode | BadDuration
                 | BadHold | BadInterval | HoldTooLong | UnsupportedDirection

  type Target = string

  /** What an input occupies: one channel for movement, one for each action. */
  datatype Channel = MoveChannel | ActionChannel(action: Action)

  /** When a job may trigger next; a one-shot hold that has triggered waits for its release. */
  datatype Due = At(tick: nat) | Never

  datatype Job = Job(action: Action, mode: Mode, interval: nat, next: Due, revision: nat, duration: Option<nat>,
                     endTick: Option<nat>, hold: Option<nat>, target: Option<Target>, remaining: Option<int>)

  datatype End = End(channel: Channel, job: nat, reason: Reason)
  datatype Transition = Transition(flag: Flag, start: bool)

  /** `jobs` is in insertion order, as the source iterates; `ends` is every end ever recorded, oldest first. */
  datatype Inputs = Inputs(tick: nat, jobs: seq<Job>, sequence: nat, movement: Option<Direction>,
                           movementEnd: Option<nat>, movementJob: Option<nat>, ends: seq<End>, teleports: nat,
                           sprint: bool, sneak: bool, transitions: seq<Transition>)

  datatype Request = Request(action: Action, mode: Mode, interval: Option<int>, duration: Option<int>,
                             hold: Option<int>, target: Option<Target>, count: Option<int>, reason: Reason)

  datatype Output = Output(tick: nat, triggered: seq<Job>, transitions: seq<Transition>, movement: Option<Direction>,
                           sprint: bool, sneak: bool)

  const EMPTY := Inputs(0, [], 0, None, None, None, [], 0, false, false, [])

  predicate ValidTicks(value: int) { 1 <= value <= MAX_TICKS }

  // -- the insertion-ordered action map ------------------------------------------

  /** The position of an action's job, or the length when it has none. */
  function Find(jobs: seq<Job>, action: Action): (i: nat)
    ensures i <= |jobs|
    ensures i < |jobs| ==> jobs[i].action == action
    ensures forall k :: 0 <= k < i ==> jobs[k].action != action
  {
    if jobs == [] || jobs[0].action == action then 0 else 1 + Find(jobs[1..], action)
  }

  function Get(jobs: seq<Job>, action: Action): (r: Option<Job>)
  {
    var i := Find(jobs, action);
    if i < |jobs| then Some(jobs[i]) else None
  }

  function Without(jobs: seq<Job>, i: nat): seq<Job>
    requires i < |jobs|
  {
    jobs[..i] + jobs[i + 1..]
  }

  function EndOf(job: Job, reason: Reason): End { End(ActionChannel(job.action), job.revision, reason) }

  function EndsOf(jobs: seq<Job>, reason: Reason): (r: seq<End>)
    ensures |r| == |jobs|
  {
    if jobs == [] then [] else EndsOf(jobs[..|jobs| - 1], reason) + [EndOf(jobs[|jobs| - 1], reason)]
  }

  // -- the operations ------------------------------------------------------------

  function EndAction(s: Inputs, action: Action, reason: Reason): Inputs
  {
    var i := Find(s.jobs, action);
    if i == |s.jobs| then s
    else s.(jobs := Without(s.jobs, i), ends := s.ends + [EndOf(s.jobs[i], reason)])
  }

  /** Why a request is refused; the checks are in the source's order. */
  function Refusal(r: Request): Option<Error>
  {
    if r.action == UnknownAction then Some(UnsupportedAction)
    else if r.action == Interact && r.mode != Stop && r.target.None? then Some(NeedsTarget)
    else if r.target.Some? && r.action != Attack && r.action != Interact then Some(NoTargetAllowed)
    else if r.count.Some? && (r.target.None? || r.mode == Once || r.mode == Stop || !(1 <= r.count.value <= MAX_COUNT))
    then Some(BadCount)
    else if r.mode == UnknownMode then Some(UnsupportedMode)
    else if r.duration.Some? && (r.mode == Once || r.mode == Stop || !ValidTicks(r.duration.value))
    then Some(BadDuration)
    else if r.hold.Some? && (r.action != Use || r.mode == Stop || !ValidTicks(r.hold.value)) then Some(BadHold)
    else if r.mode == Interval && (r.interval.None? || !(0 <= r.interval.value <= MAX_TICKS)) then Some(BadInterval)
    else if r.mode == Interval && r.interval.value < 1 then Some(BadInterval)
    else if r.mode == Interval && r.hold.Some? && r.interval.value <= r.hold.value then Some(HoldTooLong)
    else None
  }

  function IntervalOf(r: Request): nat
    requires Refusal(r).None? && r.mode != Stop
  {
    if r.mode == Continuous then (if r.hold.Some? then r.hold.value + 1 else 1)
    else if r.mode == Once then 0
    else r.interval.value
  }

  /** A held `use continuous` for a time starts counting at its first air use, not at acceptance. */
  predicate LegacyTimedUse(r: Request)
  {
    r.duration.Some? && r.action == Use && r.mode == Continuous && r.hold.None?
  }

  function NewJob(s: Inputs, r: Request): Job
    requires Refusal(r).None? && r.mode != Stop
  {
    Job(r.action, r.mode, IntervalOf(r), At(s.tick + 1), s.sequence + 1,
        if LegacyTimedUse(r) then Some(r.duration.value) else None,
        if r.duration.Some? && !LegacyTimedUse(r) then Some(s.tick + 1 + r.duration.value) else None,
        if r.hold.Some? then Some(r.hold.value) else None, r.target, r.count)
  }

  function SetAction(s: Inputs, r: Request): Result<Inputs, Error>
  {
    if Refusal(r).Some? then Err(Refusal(r).value)
    else if r.mode == Stop then Ok(EndAction(s, r.action, r.reason))
    else
      var ended := EndAction(s, r.action, Replaced);
      Ok(ended.(jobs := ended.jobs + [NewJob(s, r)], sequence := s.sequence + 1))
  }

  function StopTargeted(s: Inputs, reason: Reason): Inputs
  {
    s.(jobs := Untargeted(s.jobs), ends := s.ends + EndsOf(Targeted(s.jobs), reason))
  }

  function Targeted(jobs: seq<Job>): seq<Job>
  {
    if jobs == [] then []
    else Targeted(jobs[..|jobs| - 1]) + if jobs[|jobs| - 1].target.Some? then [jobs[|jobs| - 1]] else []
  }

  function Untargeted(jobs: seq<Job>): seq<Job>
  {
    if jobs == [] then []
    else Untargeted(jobs[..|jobs| - 1]) + if jobs[|jobs| - 1].target.Some? then [] else [jobs[|jobs| - 1]]
  }

  function CountHit(s: Inputs, action: Action, revision: nat): Inputs
  {
    var i := Find(s.jobs, action);
    if i == |s.jobs| || s.jobs[i].revision != revision || s.jobs[i].remaining.None? then s
    else
      var left := s.jobs[i].remaining.value - 1;
      var counted := s.(jobs := s.jobs[i := s.jobs[i].(remaining := Some(left))]);
      if left <= 0 then EndAction(counted, action, CountReached) else counted
  }

  function HasTimedUse(s: Inputs): bool
  {
    var use := Get(s.jobs, Use);
    use.Some? && (use.value.duration.Some? || use.value.hold.Some?)
  }

  function StartTimedUse(s: Inputs, revision: nat): Inputs
  {
    var i := Find(s.jobs, Use);
    if i < |s.jobs| && s.jobs[i].revision == revision && s.jobs[i].duration.Some? && s.jobs[i].endTick.None?
    then s.(jobs := s.jobs[i := s.jobs[i].(endTick := Some(s.tick + s.jobs[i].duration.value))])
    else s
  }

  function FinishHold(s: Inputs, revision: nat): Inputs
  {
    var i := Find(s.jobs, Use);
    if i < |s.jobs| && s.jobs[i].revision == revision && s.jobs[i].hold.Some? && s.jobs[i].mode == Once
    then EndAction(s, Use, Completed)
    else s
  }

  function CancelTimedUse(s: Inputs, reason: Reason): Inputs
  {
    if HasTimedUse(s) then EndAction(s, Use, reason) else s
  }

  function MovementRefusal(direction: Direction, duration: Option<int>): Option<Error>
  {
    if duration.Some? && (direction == Halt || !ValidTicks(duration.value)) then Some(BadDuration)
    else if direction == UnknownDirection then Some(UnsupportedDirection)
    else None
  }

  function Halted(s: Inputs, reason: Reason): Inputs
  {
    s.(movement := None, movementJob := None, movementEnd := None,
       ends := s.ends + if s.movementJob.Some? then [End(MoveChannel, s.movementJob.value, reason)] else [])
  }

  function SetMovement(s: Inputs, direction: Direction, duration: Option<int>, reason: Reason): Result<Inputs, Error>
  {
    if MovementRefusal(direction, duration).Some? then Err(MovementRefusal(direction, duration).value)
    else if direction == Halt then Ok(Halted(s, reason))
    else Ok(Halted(s, Replaced).(movement := Some(direction), movementJob := Some(s.sequence + 1),
                                 movementEnd := if duration.Some? then Some(s.tick + 1 + duration.value) else None,
                                 sequence := s.sequence + 1))
  }

  function FlagValue(s: Inputs, flag: Flag): bool { if flag == Sprint then s.sprint else s.sneak }

  function SetFlag(s: Inputs, flag: Flag, value: bool): Inputs
  {
    if FlagValue(s, flag) == value then s
    else
      var noted := s.(transitions := s.transitions + [Transition(flag, value)]);
      if flag == Sprint then noted.(sprint := value) else noted.(sneak := value)
  }

  function EndAll(s: Inputs, reason: Reason): Inputs
  {
    Halted(s.(jobs := [], ends := s.ends + EndsOf(s.jobs, reason)), reason)
  }

  function StopAll(s: Inputs, reason: Reason): Inputs
  {
    SetFlag(SetFlag(EndAll(s, reason), Sprint, false), Sneak, false)
  }

  function Reset(s: Inputs, reason: Reason): Inputs
  {
    EndAll(s, reason).(sprint := false, sneak := false, transitions := [])
  }

  // -- one tick --------------------------------------------------------------------

  datatype Swept = Swept(kept: seq<Job>, ended: seq<End>, fired: seq<Job>)

  /** What one tick does to one job. */
  function SweepJob(job: Job, tick: nat): Swept
  {
    if job.endTick.Some? && tick >= job.endTick.value then Swept([], [EndOf(job, DurationElapsed)], [])
    else if job.next.Never? || tick < job.next.tick then Swept([job], [], [])
    else if job.mode == Once && job.hold.Some? then Swept([job.(next := Never)], [], [job])
    else if job.mode == Once then Swept([], [EndOf(job, Completed)], [job])
    else Swept([job.(next := At(tick + job.interval))], [], [job])
  }

  function Sweep(jobs: seq<Job>, tick: nat): Swept
  {
    if jobs == [] then Swept([], [], [])
    else
      var before, last := Sweep(jobs[..|jobs| - 1], tick), SweepJob(jobs[|jobs| - 1], tick);
      Swept(before.kept + last.kept, before.ended + last.ended, before.fired + last.fired)
  }

  /** A tick up to the point where a timed move has been ended. */
  function BeginStep(s: Inputs): Inputs
  {
    var ticked := s.(tick := s.tick + 1);
    if s.movementEnd.Some? && ticked.tick >= s.movementEnd.value then Halted(ticked, DurationElapsed) else ticked
  }

  function Step(s: Inputs): Inputs
  {
    var begun := BeginStep(s);
    var swept := Sweep(s.jobs, begun.tick);
    begun.(jobs := swept.kept, ends := begun.ends + swept.ended, transitions := [])
  }

  function StepOutput(s: Inputs): Output
  {
    var begun := BeginStep(s);
    Output(begun.tick, Sweep(s.jobs, begun.tick).fired, s.transitions, begun.movement, s.sprint, s.sneak)
  }

  // -- what a status reports ---------------------------------------------------------

  function MovementRemaining(s: Inputs): Option<int>
  {
    if s.movementEnd.None? then None else Some(s.movementEnd.value - s.tick - 1)
  }

  function JobRemaining(s: Inputs, job: Job): Option<int>
  {
    if job.endTick.Some? then Some(job.endTick.value - s.tick - 1)
    else if job.duration.Some? then Some(job.duration.value)
    else None
  }

  // -- runs --------------------------------------------------------------------------

  datatype Event =
    | DoSetAction(request: Request)
    | DoStopTargeted(reason: Reason)
    | DoCountHit(action: Action, revision: nat)
    | DoStartTimedUse(revision: nat)
    | DoFinishHold(revision: nat)
    | DoCancelTimedUse(reason: Reason)
    | DoSetMovement(direction: Direction, duration: Option<int>, reason: Reason)
    | DoSetFlag(flag: Flag, value: bool)
    | DoTeleported
    | DoStopAll(reason: Reason)
    | DoReset(reason: Reason)
    | DoStep

  /** The state after one call; a refused call changes nothing. */
  function Apply(s: Inputs, e: Event): Inputs
  {
    match e
    case DoSetAction(request) => (match SetAction(s, request) case Ok(next) => next case Err(_) => s)
    case DoStopTargeted(reason) => StopTargeted(s, reason)
    case DoCountHit(action, revision) => CountHit(s, action, revision)
    case DoStartTimedUse(revision) => StartTimedUse(s, revision)
    case DoFinishHold(revision) => FinishHold(s, revision)
    case DoCancelTimedUse(reason) => CancelTimedUse(s, reason)
    case DoSetMovement(direction, duration, reason) =>
      (match SetMovement(s, direction, duration, reason) case Ok(next) => next case Err(_) => s)
    case DoSetFlag(flag, value) => SetFlag(s, flag, value)
    case DoTeleported => s.(teleports := s.teleports + 1)
    case DoStopAll(reason) => StopAll(s, reason)
    case DoReset(reason) => Reset(s, reason)
    case DoStep => Step(s)
  }

  function Run(s: Inputs, es: seq<Event>): Inputs
    decreases |es|
  {
    if es == [] then s else Run(Apply(s, es[0]), es[1..])
  }
}
