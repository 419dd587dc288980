/**
 * The connection lifecycle of one Bot (runtime/src/lifecycle.js) as atomic steps: every async operation is split
 * at its awaits, and the steps of any number of operations, connects, close events and timers interleave freely.
 */
module Lifecycle {
  import opened Common

  datatype Phase = Connecting | Online | Reconnecting | Offline | Failed

  datatype Config = Config(initialDelay: nat, maximumDelay: nat, maximumAttempts: nat, notReadyDelay: nat,
                           notReadyLimit: nat)

  /** One state slot; objects are shared by reference, so they live in a table and are named by their index. */
  datatype BotState = BotState(phase: Phase, session: Option<nat>, attempt: nat, waitingSince: Option<int>,
                               timer: Option<nat>, handled: Option<nat>)

  datatype Profile = Profile(name: string, desiredOnline: bool)

  /** One session the factory made: the generation it was made under and the state object that holds it. */
  datatype Attempt = Attempt(generation: nat, slot: nat)

  datatype Timer = Timer(slot: nat, generation: nat, due: int)

  datatype Kind = SpawnKind | ReconnectKind | DespawnKind | ForgetKind | RenameKind(wasOnline: bool, newName: string)
                | RetryKind

  /** Where a queued transition has got to: each stage ends at an await. */
  datatype Stage = Queued | Ending(slot: nat, session: nat) | Ended | Delaying | Prepared(ready: bool)

  datatype Task = Task(kind: Kind, generation: nat, stage: Stage)

  /**
   * `open` holds the sessions made and not yet known to be closed, `flights` those whose connect is pending,
   * `emitted` those whose one close event was delivered, `superseded` those closed outside any transition.
   */
  datatype Bot = Bot(profile: Option<Profile>, generation: nat, closing: bool, now: int, objects: seq<BotState>,
                     entry: Option<nat>, attempts: seq<Attempt>, flights: set<nat>, open: set<nat>,
                     emitted: set<nat>, superseded: set<nat>, queue: seq<Task>, timers: map<nat, Timer>,
                     nextTimer: nat)

  predicate Active(phase: Phase) { phase == Connecting || phase == Online || phase == Reconnecting }

  predicate HasEntry(b: Bot) { b.entry.Some? && b.entry.value < |b.objects| }

  function Current(b: Bot): BotState
    requires HasEntry(b)
  {
    b.objects[b.entry.value]
  }

  predicate HasSession(b: Bot) { HasEntry(b) && Current(b).session.Some? }

  predicate Desired(b: Bot) { b.profile.Some? && b.profile.value.desiredOnline }

  predicate MayConnect(b: Bot, generation: nat) { !b.closing && Desired(b) && b.generation == generation }

  function Update(b: Bot, slot: nat, state: BotState): Bot
  {
    if slot < |b.objects| then b.(objects := b.objects[slot := state]) else b
  }

  function NewState(phase: Phase, previous: Option<BotState>): BotState
  {
    if previous.Some? then previous.value.(phase := phase) else BotState(phase, None, 0, None, None, None)
  }

  function Previous(b: Bot): Option<BotState> { if HasEntry(b) then Some(Current(b)) else None }

  /** Puts a new state object in the map. */
  function Enter(b: Bot, state: BotState): Bot
  {
    b.(objects := b.objects + [state], entry := Some(|b.objects|))
  }

  function CancelTimer(b: Bot): Bot
  {
    if HasEntry(b) && Current(b).timer.Some?
    then Update(b, b.entry.value, Current(b).(timer := None)).(timers := b.timers - {Current(b).timer.value})
    else b
  }

  function Invalidate(b: Bot): Bot { CancelTimer(b.(generation := b.generation + 1)) }

  function ResetRetryBudget(b: Bot): Bot
  {
    if HasEntry(b) then Update(b, b.entry.value, Current(b).(attempt := 0)) else b
  }

  // -- losing a connection -----------------------------------------------------------

  function Power(k: nat): nat { if k == 0 then 1 else 2 * Power(k - 1) }

  function Backoff(c: Config, attempt: nat): nat
    requires attempt >= 1
  {
    var delay := c.initialDelay * Power(attempt - 1);
    if delay < c.maximumDelay then delay else c.maximumDelay
  }

  function RetryAfter(b: Bot, slot: nat, state: BotState, delay: nat): Bot
    requires slot < |b.objects|
  {
    Update(b, slot, state.(phase := Reconnecting, timer := Some(b.nextTimer)))
    .(entry := Some(slot), nextTimer := b.nextTimer + 1,
      timers := b.timers[b.nextTimer := Timer(slot, b.generation, b.now + delay)])
  }

  /** Whether a report of a lost session is acted on. */
  predicate Handles(b: Bot, generation: nat, session: Option<nat>)
  {
    && b.generation == generation
    && b.profile.Some?
    && (HasEntry(b) ==>
          && (Current(b).session.Some? ==> Current(b).session == session)
          && Current(b).handled != Some(generation))
  }

  function NotReadyState(b: Bot, state: BotState): BotState
  {
    if state.waitingSince.Some? then state else state.(waitingSince := Some(b.now))
  }

  function Disconnected(c: Config, b: Bot, generation: nat, session: Option<nat>, notReady: bool): Bot
  {
    if !Handles(b, generation, session) then b
    else
      var e := if HasEntry(b) then b else Enter(b, NewState(Offline, None));
      var slot := e.entry.value;
      var lost := Current(e).(handled := Some(generation), session := None);
      if !Desired(b) then Update(e, slot, lost.(phase := Offline))
      else
        var state := if notReady then NotReadyState(b, lost) else lost;
        if notReady && b.now - state.waitingSince.value < c.notReadyLimit
        then RetryAfter(e, slot, state, c.notReadyDelay)
        else
          var counted := state.(attempt := state.attempt + 1);
          if counted.attempt > c.maximumAttempts then Update(e, slot, counted.(phase := Failed))
          else RetryAfter(e, slot, counted, Backoff(c, counted.attempt))
  }

  // -- opening and closing a session ---------------------------------------------------

  /** The synchronous part of connecting; `created` is false when the session factory throws. */
  function Connect(c: Config, b: Bot, generation: nat, reconnecting: bool, created: bool): Bot
  {
    if !MayConnect(b, generation) then b
    else if HasSession(b) then Update(b, b.entry.value, Current(b).(phase := Failed))
    else
      var state := NewState(if reconnecting then Reconnecting else Connecting, Previous(b))
                   .(timer := None, handled := None);
      var e := Enter(b, state);
      var session := |b.attempts|;
      if created
      then Update(e, e.entry.value, state.(session := Some(session)))
           .(attempts := b.attempts + [Attempt(generation, e.entry.value)], flights := b.flights + {session},
             open := b.open + {session})
      else Disconnected(c, e, generation, None, false)
  }

  /** Ending the current session up to its await: the next stage of the transition that does it. */
  function BeginEnd(b: Bot): Bot
    requires |b.queue| > 0
  {
    var e := CancelTimer(b);
    SetStage(e, if HasSession(e) then Ending(e.entry.value, Current(e).session.value) else Ended)
  }

  function FinishEnd(b: Bot, slot: nat, session: nat, generation: nat): Bot
  {
    var closed := b.(open := b.open - {session});
    if slot < |b.objects|
    then
      var state := b.objects[slot];
      Update(closed, slot, state.(session := if state.session == Some(session) then None else state.session,
                                    phase := Offline, handled := Some(generation)))
    else closed
  }

  function FailEnd(b: Bot, slot: nat): Bot
  {
    if slot < |b.objects|
    then Update(b, slot, b.objects[slot].(phase := Failed)).(entry := Some(slot))
    else b
  }

  // -- the queue of transitions -----------------------------------------------------------

  function SetStage(b: Bot, stage: Stage): Bot
    requires |b.queue| > 0
  {
    b.(queue := b.queue[0 := b.queue[0].(stage := stage)])
  }

  function Pop(b: Bot): Bot
    requires |b.queue| > 0
  {
    b.(queue := b.queue[1..])
  }

  function Push(b: Bot, kind: Kind, generation: nat): Bot
  {
    b.(queue := b.queue + [Task(kind, generation, Queued)])
  }

  function Submit(b: Bot, kind: Kind): Bot
  {
    var i := Invalidate(b);
    Push(i, kind, i.generation)
  }

  function AdvanceSpawn(c: Config, b: Bot, created: bool): Bot
    requires |b.queue| > 0
  {
    var g := b.queue[0].generation;
    match b.queue[0].stage
    case Queued =>
      if !MayConnect(b, g) then Pop(b)
      else if !HasSession(b) then SetStage(b, Prepared(true))
      else BeginEnd(b)
    case Ended => SetStage(b, if MayConnect(b, g) then Delaying else Prepared(false))
    case Delaying => SetStage(b, Prepared(MayConnect(b, g)))
    case Prepared(ready) => if ready then Connect(c, ResetRetryBudget(Pop(b)), g, false, created) else Pop(b)
    case Ending(_, _) => b
  }

  function AdvanceReconnect(c: Config, b: Bot, created: bool): Bot
    requires |b.queue| > 0
  {
    var g := b.queue[0].generation;
    match b.queue[0].stage
    case Queued => if !MayConnect(b, g) then Pop(b) else BeginEnd(ResetRetryBudget(b))
    case Ended => if !MayConnect(b, g) then Pop(b) else SetStage(b, Delaying)
    case Delaying => Connect(c, Pop(b), g, true, created)
    case _ => b
  }

  function AdvanceDespawn(b: Bot): Bot
    requires |b.queue| > 0
  {
    match b.queue[0].stage
    case Queued => BeginEnd(b)
    case Ended =>
      if b.generation == b.queue[0].generation && b.profile.Some? && !Desired(b)
      then Enter(Pop(b), NewState(Offline, Previous(b)))
      else Pop(b)
    case _ => b
  }

  /** Storing the new name, then connecting under whichever profile the store now holds. */
  function StoreName(c: Config, b: Bot, created: bool, stored: bool): Bot
    requires |b.queue| > 0 && b.queue[0].kind.RenameKind?
  {
    var t := b.queue[0];
    var named := if stored && b.profile.Some?
                 then b.(profile := Some(b.profile.value.(name := t.kind.newName))) else b;
    if t.kind.wasOnline && MayConnect(b, t.generation) && (stored || !HasSession(b))
    then Connect(c, ResetRetryBudget(Pop(named)), t.generation, true, created)
    else Pop(named)
  }

  function AdvanceRename(c: Config, b: Bot, created: bool, stored: bool): Bot
    requires |b.queue| > 0 && b.queue[0].kind.RenameKind?
  {
    var t := b.queue[0];
    match t.stage
    case Queued => if t.kind.wasOnline then BeginEnd(b) else StoreName(c, b, created, stored)
    case Ended => if !MayConnect(b, t.generation) then Pop(b) else SetStage(b, Delaying)
    case Delaying => if !MayConnect(b, t.generation) then Pop(b) else StoreName(c, b, created, stored)
    case _ => b
  }

  predicate MayForget(b: Bot)
  {
    && b.profile.Some? && !Desired(b)
    && (HasEntry(b) ==> Current(b).session.None? && Current(b).timer.None? && !Active(Current(b).phase))
  }

  function AdvanceForget(b: Bot, stored: bool): Bot
    requires |b.queue| > 0
  {
    if b.queue[0].stage != Queued then b
    else if !MayForget(b) then Pop(b)
    else
      var gone := Invalidate(Pop(b)).(entry := None);
      if stored then gone.(profile := None) else gone
  }

  function AdvanceRetry(c: Config, b: Bot, created: bool): Bot
    requires |b.queue| > 0
  {
    if b.queue[0].stage != Queued then b
    else Connect(c, Pop(b), b.queue[0].generation, true, created)
  }

  /** The next step of the running transition, when it is not waiting for a session to close. */
  function Advance(c: Config, b: Bot, created: bool, stored: bool): Bot
  {
    if |b.queue| == 0 then b
    else
      match b.queue[0].kind
      case SpawnKind => AdvanceSpawn(c, b, created)
      case ReconnectKind => AdvanceReconnect(c, b, created)
      case DespawnKind => AdvanceDespawn(b)
      case RenameKind(_, _) => AdvanceRename(c, b, created, stored)
      case ForgetKind => AdvanceForget(b, stored)
      case RetryKind => AdvanceRetry(c, b, created)
  }

  predicate EndingNow(b: Bot) { |b.queue| > 0 && b.queue[0].stage.Ending? }

  // -- events -----------------------------------------------------------------------------

  /** `stored` says whether the profile store accepts the change, `created` whether the session factory succeeds. */
  datatype Event =
    | Elapse(ms: nat)
    | Spawn(stored: bool)
    | Reconnect
    | Despawn(stored: bool)
    | Forget
    | Rename(newName: string, accepted: bool)
    | Proceed(created: bool, stored: bool)
    | DisconnectDone
    | DisconnectFailed
    | ConnectDone(session: nat)
    | ConnectFailed(session: nat, notReady: bool)
    | Closed(session: nat, notReady: bool)
    | SupersededClosed(session: nat)
    | TimerFired(timer: nat)
    | CloseBegin
    | CloseFinish

  function SpawnIntent(b: Bot, stored: bool): Bot
  {
    if b.profile.None? || (Desired(b) && HasEntry(b) && Active(Current(b).phase)) || !stored then b
    else Submit(b.(profile := Some(b.profile.value.(desiredOnline := true))), SpawnKind)
  }

  function DespawnIntent(b: Bot, stored: bool): Bot
  {
    if b.profile.None? || !stored then b
    else Submit(b.(profile := Some(b.profile.value.(desiredOnline := false))), DespawnKind)
  }

  function Connected(b: Bot, session: nat): Bot
    requires session < |b.attempts|
  {
    var a := b.attempts[session];
    var landed := b.(flights := b.flights - {session});
    if !MayConnect(b, a.generation) || !HasEntry(b) || Current(b).session != Some(session)
    then landed.(superseded := b.superseded + {session})
    else if a.slot < |b.objects|
    then Update(landed, a.slot, b.objects[a.slot].(phase := Online, attempt := 0, waitingSince := None))
    else landed
  }

  /** What the connect that failed believes it held: its own object's session. */
  function HeldBy(b: Bot, session: nat): Option<nat>
    requires session < |b.attempts|
  {
    var slot := b.attempts[session].slot;
    if slot < |b.objects| then b.objects[slot].session else None
  }

  function Fire(b: Bot, timer: nat): Bot
    requires timer in b.timers
  {
    var t := b.timers[timer];
    var fired := b.(timers := b.timers - {timer});
    var cleared := if t.slot < |b.objects| then Update(fired, t.slot, b.objects[t.slot].(timer := None)) else fired;
    Push(cleared, RetryKind, t.generation)
  }

  function FinishClose(b: Bot): Bot
  {
    var quiet := CancelTimer(b);
    quiet.(entry := None,
           superseded := b.superseded + if HasSession(b) then {Current(b).session.value} else {})
  }

  /** One atomic step; an event that cannot happen in a state leaves it alone. */
  function Step(c: Config, b: Bot, e: Event): Bot
  {
    match e
    case Elapse(ms) => b.(now := b.now + ms)
    case Spawn(stored) => SpawnIntent(b, stored)
    case Reconnect => if Desired(b) then Submit(b, ReconnectKind) else b
    case Despawn(stored) => DespawnIntent(b, stored)
    case Forget => if b.profile.Some? then Push(b, ForgetKind, 0) else b
    case Rename(newName, accepted) =>
      if b.profile.None? || !accepted then b else Submit(b, RenameKind(Desired(b), newName))
    case Proceed(created, stored) => Advance(c, b, created, stored)
    case DisconnectDone =>
      if !EndingNow(b) then b
      else
        var t := b.queue[0];
        SetStage(FinishEnd(b, t.stage.slot, t.stage.session, t.generation), Ended)
    case DisconnectFailed => if !EndingNow(b) then b else Pop(FailEnd(b, b.queue[0].stage.slot))
    case ConnectDone(session) => if session !in b.flights || session >= |b.attempts| then b else Connected(b, session)
    case ConnectFailed(session, notReady) =>
      if session !in b.flights || session >= |b.attempts| then b
      else Disconnected(c, b.(flights := b.flights - {session}, open := b.open - {session}),
                        b.attempts[session].generation, HeldBy(b, session), notReady)
    case Closed(session, notReady) =>
      if session >= |b.attempts| || session in b.emitted then b
      else Disconnected(c, b.(emitted := b.emitted + {session}, open := b.open - {session}),
                        b.attempts[session].generation, Some(session), notReady)
    case SupersededClosed(session) =>
      if session !in b.superseded then b
      else b.(superseded := b.superseded - {session}, open := b.open - {session})
    case TimerFired(timer) => if timer in b.timers && b.now >= b.timers[timer].due then Fire(b, timer) else b
    case CloseBegin => if b.profile.Some? then Invalidate(b.(closing := true)) else b.(closing := true)
    case CloseFinish => if b.closing then FinishClose(b) else b
  }

  function Run(c: Config, b: Bot, es: seq<Event>): Bot
    decreases |es|
  {
    if es == [] then b else Run(c, Step(c, b, es[0]), es[1..])
  }

  /** A Bot as the runtime finds it at boot, after `start` has connected it when its profile asks for that. */
  function Started(c: Config, profile: Profile, now: int, created: bool): Bot
  {
    var b := Bot(Some(profile), 0, false, now, [], None, [], {}, {}, {}, {}, [], map[], 0);
    if profile.desiredOnline then Connect(c, Invalidate(b), 1, true, created) else b
  }
}
