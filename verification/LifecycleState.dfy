/** The lifecycle object of one Bot (runtime/src/lifecycle.js), updated in place and refining the steps on values. */
module LifecycleStates {
  import opened Common
  import L = Lifecycle
  import LifecycleInv

  class BotLifecycle {
    const config: L.Config
    var profile: Option<L.Profile>
    var generation: nat
    var closing: bool
    var now: int
    /** Every state object ever made; a reference to one is its index, so references share what they name. */
    var objects: seq<L.BotState>
    /** The state object in the map of sessions. */
    var entry: Option<nat>
    var attempts: seq<L.Attempt>
    var flights: set<nat>
    var alive: set<nat>
    var emitted: set<nat>
    var superseded: set<nat>
    var transitions: seq<L.Task>
    var timers: map<nat, L.Timer>
    var nextTimer: nat

    ghost function View(): L.Bot
      reads this
    {
      L.Bot(profile, generation, closing, now, objects, entry, attempts, flights, alive, emitted, superseded, transitions,
            timers, nextTimer)
    }

    ghost predicate Valid()
      reads this
    {
      LifecycleInv.Inv(View())
    }

    /** A runtime that has just listened starts the Bot when its profile asks for that. */
    constructor (config: L.Config, profile: L.Profile, now: int, created: bool)
      ensures Valid() && this.config == config && View() == L.Started(config, profile, now, created)
    {
      this.config, this.profile, this.now := config, Some(profile), now;
      generation, closing, objects, entry, attempts := 0, false, [], None, [];
      flights, alive, emitted, superseded, transitions, timers, nextTimer := {}, {}, {}, {}, [], map[], 0;
      new;
      LifecycleInv.StartedOk(config, profile, now, created);
      hide L.Connect, LifecycleInv.Inv;
      if profile.desiredOnline {
        var current := Invalidate();
        Connect(current, true, created);
      }
    }

    /** A spawn of a name without a profile makes a Bot of its own, offline at first, and brings it online. */
    constructor ForNewName(config: L.Config, name: string, now: int, stored: bool)
      ensures Valid() && this.config == config
      ensures View() == L.Step(config, L.Started(config, L.Profile(name, false), now, false), L.Spawn(stored))
    {
      this.config, this.profile, this.now := config, Some(L.Profile(name, false)), now;
      generation, closing, objects, entry, attempts := 0, false, [], None, [];
      flights, alive, emitted, superseded, transitions, timers, nextTimer := {}, {}, {}, {}, [], map[], 0;
      new;
      LifecycleInv.StartedOk(config, L.Profile(name, false), now, false);
      hide L.Connect, L.Step, LifecycleInv.Inv;
      assert View() == L.Started(config, L.Profile(name, false), now, false);
      Spawn(stored);
    }

    predicate HasEntry()
      reads this
    {
      entry.Some? && entry.value < |objects|
    }

    predicate HasSession()
      reads this
    {
      HasEntry() && objects[entry.value].session.Some?
    }

    predicate Desired()
      reads this
    {
      profile.Some? && profile.value.desiredOnline
    }

    predicate MayConnect(current: nat)
      reads this
    {
      !closing && Desired() && generation == current
    }

    // -- generations and timers ---------------------------------------------------------

    method CancelTimer()
      modifies this`objects, this`timers
      ensures View() == L.CancelTimer(old(View()))
    {
      if HasEntry() && objects[entry.value].timer.Some? {
        timers := timers - {objects[entry.value].timer.value};
        objects := objects[entry.value := objects[entry.value].(timer := None)];
      }
    }

    method Invalidate() returns (current: nat)
      modifies this`generation, this`objects, this`timers
      ensures View() == L.Invalidate(old(View())) && current == generation
    {
      generation := generation + 1;
      CancelTimer();
      current := generation;
    }

    method ResetRetryBudget()
      modifies this`objects
      ensures View() == L.ResetRetryBudget(old(View()))
    {
      if HasEntry() { objects := objects[entry.value := objects[entry.value].(attempt := 0)]; }
    }

    method RetryAfter(delay: nat, slot: nat, state: L.BotState)
      requires slot < |objects|
      modifies this`objects, this`entry, this`timers, this`nextTimer
      ensures View() == L.RetryAfter(old(View()), slot, state, delay)
    {
      objects := objects[slot := state.(phase := L.Reconnecting, timer := Some(nextTimer))];
      timers := timers[nextTimer := L.Timer(slot, generation, now + delay)];
      nextTimer := nextTimer + 1;
      entry := Some(slot);
    }

    // -- sessions -------------------------------------------------------------------------

    /** A session was lost: counts it once, and arms a retry where the Bot should be online. */
    method Disconnected(lost: nat, session: Option<nat>, notReady: bool)
      modifies this`objects, this`entry, this`timers, this`nextTimer
      ensures View() == L.Disconnected(config, old(View()), lost, session, notReady)
    {
      hide L.Backoff;
      if generation != lost || profile.None? { return; }
      if HasEntry() && objects[entry.value].session.Some? && objects[entry.value].session != session { return; }
      if HasEntry() && objects[entry.value].handled == Some(lost) { return; }
      if !HasEntry() {
        objects := objects + [L.NewState(L.Offline, None)];
        entry := Some(|objects| - 1);
      }
      var slot := entry.value;
      var state := objects[slot].(handled := Some(lost), session := None);
      if !Desired() {
        objects := objects[slot := state.(phase := L.Offline)];
        return;
      }
      if notReady {
        if state.waitingSince.None? { state := state.(waitingSince := Some(now)); }
        if now - state.waitingSince.value < config.notReadyLimit {
          RetryAfter(config.notReadyDelay, slot, state);
          return;
        }
      }
      state := state.(attempt := state.attempt + 1);
      if state.attempt > config.maximumAttempts {
        objects := objects[slot := state.(phase := L.Failed)];
        return;
      }
      RetryAfter(L.Backoff(config, state.attempt), slot, state);
    }

    /** Makes a session unless one is still held; `created` is false when the factory throws. */
    method Connect(current: nat, reconnecting: bool, created: bool)
      modifies this`objects, this`entry, this`attempts, this`flights, this`alive, this`timers, this`nextTimer
      ensures View() == L.Connect(config, old(View()), current, reconnecting, created)
    {
      hide L.Disconnected;
      if !MayConnect(current) { return; }
      if HasSession() {
        objects := objects[entry.value := objects[entry.value].(phase := L.Failed)];
        return;
      }
      var previous := if HasEntry() then Some(objects[entry.value]) else None;
      var phase := if reconnecting then L.Reconnecting else L.Connecting;
      var state := L.NewState(phase, previous).(timer := None, handled := None);
      objects := objects + [state];
      entry := Some(|objects| - 1);
      if created {
        var session := |attempts|;
        objects := objects[entry.value := state.(session := Some(session))];
        attempts := attempts + [L.Attempt(current, entry.value)];
        flights, alive := flights + {session}, alive + {session};
      } else {
        Disconnected(current, None, false);
      }
    }

    /** Closing the held session, up to the await of its disconnect. */
    method BeginEndCurrent()
      requires |transitions| > 0
      modifies this`objects, this`timers, this`transitions
      ensures View() == L.BeginEnd(old(View()))
    {
      hide L.CancelTimer;
      ghost var before := View();
      CancelTimer();
      assert View().queue == before.queue by { CancelKeepsQueue(before); }
      var stage := if HasSession() then L.Ending(entry.value, objects[entry.value].session.value) else L.Ended;
      transitions := transitions[0 := transitions[0].(stage := stage)];
    }

    // -- events ---------------------------------------------------------------------------

    method ConnectDone(session: nat)
      requires Valid() && session in flights && session < |attempts|
      modifies this
      ensures Valid() && View() == L.Step(config, old(View()), L.ConnectDone(session))
    {
      hide LifecycleInv.Inv;
      LifecycleInv.StepKeeps(config, View(), L.ConnectDone(session));
      var made := attempts[session];
      flights := flights - {session};
      if !MayConnect(made.generation) || !HasEntry() || objects[entry.value].session != Some(session) {
        superseded := superseded + {session};
      } else if made.slot < |objects| {
        objects := objects[made.slot := objects[made.slot].(phase := L.Online, attempt := 0, waitingSince := None)];
      }
    }

    method ConnectFailed(session: nat, notReady: bool)
      requires Valid() && session in flights && session < |attempts|
      modifies this
      ensures Valid() && View() == L.Step(config, old(View()), L.ConnectFailed(session, notReady))
    {
      hide LifecycleInv.Inv, L.Disconnected;
      LifecycleInv.StepKeeps(config, View(), L.ConnectFailed(session, notReady));
      var made := attempts[session];
      var held := if made.slot < |objects| then objects[made.slot].session else None;
      flights, alive := flights - {session}, alive - {session};
      Disconnected(made.generation, held, notReady);
    }

    method SessionClosed(session: nat, notReady: bool)
      requires Valid() && session < |attempts| && session !in emitted
      modifies this
      ensures Valid() && View() == L.Step(config, old(View()), L.Closed(session, notReady))
    {
      hide LifecycleInv.Inv, L.Disconnected;
      LifecycleInv.StepKeeps(config, View(), L.Closed(session, notReady));
      emitted, alive := emitted + {session}, alive - {session};
      Disconnected(attempts[session].generation, Some(session), notReady);
    }

    method FireTimer(timer: nat)
      requires Valid() && timer in timers && now >= timers[timer].due
      modifies this
      ensures Valid() && View() == L.Step(config, old(View()), L.TimerFired(timer))
    {
      hide LifecycleInv.Inv;
      LifecycleInv.StepKeeps(config, View(), L.TimerFired(timer));
      var armed := timers[timer];
      timers := timers - {timer};
      if armed.slot < |objects| { objects := objects[armed.slot := objects[armed.slot].(timer := None)]; }
      transitions := transitions + [L.Task(L.RetryKind, armed.generation, L.Queued)];
    }

    /** Queues a transition under a new generation, which cancels the armed retry. */
    method Submit(kind: L.Kind)
      modifies this`generation, this`objects, this`timers, this`transitions
      ensures View() == L.Submit(old(View()), kind)
    {
      hide L.CancelTimer;
      ghost var before := View();
      var current := Invalidate();
      assert View().queue == before.queue by { CancelKeepsQueue(before.(generation := current)); }
      transitions := transitions + [L.Task(kind, current, L.Queued)];
    }

    /** A spawn of a name that has a profile. */
    method Spawn(stored: bool)
      requires Valid()
      modifies this
      ensures Valid() && View() == L.Step(config, old(View()), L.Spawn(stored))
    {
      hide LifecycleInv.Inv, L.Submit;
      LifecycleInv.StepKeeps(config, View(), L.Spawn(stored));
      if profile.None? { return; }
      if profile.value.desiredOnline && HasEntry() && L.Active(objects[entry.value].phase) { return; }
      if !stored { return; }
      profile := Some(profile.value.(desiredOnline := true));
      Submit(L.SpawnKind);
    }

    method Reconnect()
      requires Valid()
      modifies this
      ensures Valid() && View() == L.Step(config, old(View()), L.Reconnect)
    {
      hide LifecycleInv.Inv, L.Submit;
      LifecycleInv.StepKeeps(config, View(), L.Reconnect);
      if Desired() { Submit(L.ReconnectKind); }
    }

    method Despawn(stored: bool)
      requires Valid()
      modifies this
      ensures Valid() && View() == L.Step(config, old(View()), L.Despawn(stored))
    {
      hide LifecycleInv.Inv, L.Submit;
      LifecycleInv.StepKeeps(config, View(), L.Despawn(stored));
      if profile.None? || !stored { return; }
      profile := Some(profile.value.(desiredOnline := false));
      Submit(L.DespawnKind);
    }

    method Rename(newName: string, accepted: bool)
      requires Valid()
      modifies this
      ensures Valid() && View() == L.Step(config, old(View()), L.Rename(newName, accepted))
    {
      hide LifecycleInv.Inv, L.Submit;
      LifecycleInv.StepKeeps(config, View(), L.Rename(newName, accepted));
      if profile.None? || !accepted { return; }
      Submit(L.RenameKind(profile.value.desiredOnline, newName));
    }

    /** The disconnect that the running transition awaits has resolved: the session is closed. */
    method DisconnectResolved()
      requires Valid() && |transitions| > 0 && transitions[0].stage.Ending?
      modifies this
      ensures Valid() && View() == L.Step(config, old(View()), L.DisconnectDone)
    {
      hide LifecycleInv.Inv;
      LifecycleInv.StepKeeps(config, View(), L.DisconnectDone);
      var task := transitions[0];
      var slot, session := task.stage.slot, task.stage.session;
      alive := alive - {session};
      if slot < |objects| {
        var state := objects[slot];
        if state.session == Some(session) { state := state.(session := None); }
        objects := objects[slot := state.(phase := L.Offline, handled := Some(task.generation))];
      }
      transitions := transitions[0 := task.(stage := L.Ended)];
    }

    /** The disconnect was rejected: the state has failed and the transition is over. */
    method DisconnectRejected()
      requires Valid() && |transitions| > 0 && transitions[0].stage.Ending?
      modifies this
      ensures Valid() && View() == L.Step(config, old(View()), L.DisconnectFailed)
    {
      hide LifecycleInv.Inv;
      LifecycleInv.StepKeeps(config, View(), L.DisconnectFailed);
      var slot := transitions[0].stage.slot;
      if slot < |objects| {
        objects := objects[slot := objects[slot].(phase := L.Failed)];
        entry := Some(slot);
      }
      transitions := transitions[1..];
    }

    method Forget()
      requires Valid()
      modifies this
      ensures Valid() && View() == L.Step(config, old(View()), L.Forget)
    {
      hide LifecycleInv.Inv;
      LifecycleInv.StepKeeps(config, View(), L.Forget);
      if profile.None? { return; }
      transitions := transitions + [L.Task(L.ForgetKind, 0, L.Queued)];
    }

    /** Shutting down: nothing connects any more, and then every session is left to its closing. */
    method BeginClose()
      requires Valid()
      modifies this
      ensures Valid() && View() == L.Step(config, old(View()), L.CloseBegin)
    {
      hide LifecycleInv.Inv;
      LifecycleInv.StepKeeps(config, View(), L.CloseBegin);
      closing := true;
      if profile.Some? { var current := Invalidate(); }
    }

    method FinishClose()
      requires Valid() && closing
      modifies this
      ensures Valid() && View() == L.Step(config, old(View()), L.CloseFinish)
    {
      hide LifecycleInv.Inv, L.CancelTimer;
      LifecycleInv.StepKeeps(config, View(), L.CloseFinish);
      var held := if HasSession() then {objects[entry.value].session.value} else {};
      CancelTimer();
      superseded := superseded + held;
      entry := None;
    }

    // -- the running transition -------------------------------------------------------------

    method Stage(stage: L.Stage)
      requires |transitions| > 0
      modifies this`transitions
      ensures View() == L.SetStage(old(View()), stage)
    {
      transitions := transitions[0 := transitions[0].(stage := stage)];
    }

    method EndTransition()
      requires |transitions| > 0
      modifies this`transitions
      ensures View() == L.Pop(old(View()))
    {
      transitions := transitions[1..];
    }

    method ProceedSpawn(created: bool)
      requires |transitions| > 0
      modifies this
      ensures View() == L.AdvanceSpawn(config, old(View()), created)
    {
      hide L.Connect, L.BeginEnd, L.SetStage, L.Pop, L.ResetRetryBudget;
      var task := transitions[0];
      match task.stage
      case Queued =>
        if !MayConnect(task.generation) { EndTransition(); }
        else if !HasSession() { Stage(L.Prepared(true)); }
        else { BeginEndCurrent(); }
      case Ended => Stage(if MayConnect(task.generation) then L.Delaying else L.Prepared(false));
      case Delaying => Stage(L.Prepared(MayConnect(task.generation)));
      case Prepared(ready) =>
        EndTransition();
        if ready {
          ResetRetryBudget();
          Connect(task.generation, false, created);
        }
      case Ending(_, _) =>
    }

    method ProceedReconnect(created: bool)
      requires |transitions| > 0
      modifies this
      ensures View() == L.AdvanceReconnect(config, old(View()), created)
    {
      hide L.Connect, L.BeginEnd, L.SetStage, L.Pop;
      var task := transitions[0];
      match task.stage
      case Queued =>
        if !MayConnect(task.generation) {
          EndTransition();
        } else {
          ResetRetryBudget();
          BeginEndCurrent();
        }
      case Ended => if !MayConnect(task.generation) { EndTransition(); } else { Stage(L.Delaying); }
      case Delaying =>
        EndTransition();
        Connect(task.generation, true, created);
      case _ =>
    }

    method ProceedDespawn()
      requires |transitions| > 0
      modifies this
      ensures View() == L.AdvanceDespawn(old(View()))
    {
      hide L.BeginEnd;
      var task := transitions[0];
      match task.stage
      case Queued => BeginEndCurrent();
      case Ended =>
        EndTransition();
        if generation == task.generation && profile.Some? && !Desired() {
          var previous := if HasEntry() then Some(objects[entry.value]) else None;
          objects := objects + [L.NewState(L.Offline, previous)];
          entry := Some(|objects| - 1);
        }
      case _ =>
    }

    /** Commits the new name; a store that refuses leaves the Bot running under the name it has. */
    method CommitName(created: bool, stored: bool)
      requires |transitions| > 0 && transitions[0].kind.RenameKind?
      modifies this
      ensures View() == L.StoreName(config, old(View()), created, stored)
    {
      hide L.Connect, L.ResetRetryBudget;
      var task := transitions[0];
      var resume := task.kind.wasOnline && MayConnect(task.generation) && (stored || !HasSession());
      if stored && profile.Some? { profile := Some(profile.value.(name := task.kind.newName)); }
      EndTransition();
      if resume {
        ResetRetryBudget();
        Connect(task.generation, true, created);
      }
    }

    method ProceedRename(created: bool, stored: bool)
      requires |transitions| > 0 && transitions[0].kind.RenameKind?
      modifies this
      ensures View() == L.AdvanceRename(config, old(View()), created, stored)
    {
      hide L.StoreName, L.BeginEnd, L.SetStage, L.Pop;
      var task := transitions[0];
      match task.stage
      case Queued => if task.kind.wasOnline { BeginEndCurrent(); } else { CommitName(created, stored); }
      case Ended => if !MayConnect(task.generation) { EndTransition(); } else { Stage(L.Delaying); }
      case Delaying => if !MayConnect(task.generation) { EndTransition(); } else { CommitName(created, stored); }
      case _ =>
    }

    method ProceedForget(stored: bool)
      requires |transitions| > 0
      modifies this
      ensures View() == L.AdvanceForget(old(View()), stored)
    {
      hide L.CancelTimer;
      if transitions[0].stage != L.Queued { return; }
      var state := if HasEntry() then Some(objects[entry.value]) else None;
      var may := profile.Some? && !Desired()
                 && (state.Some? ==> state.value.session.None? && state.value.timer.None? && !L.Active(state.value.phase));
      EndTransition();
      if !may { return; }
      var current := Invalidate();
      entry := None;
      if stored { profile := None; }
    }

    /** The next step of the running transition. */
    method Proceed(created: bool, stored: bool)
      requires Valid()
      modifies this
      ensures Valid() && View() == L.Step(config, old(View()), L.Proceed(created, stored))
    {
      hide LifecycleInv.Inv, L.Connect, L.AdvanceSpawn, L.AdvanceReconnect, L.AdvanceDespawn, L.AdvanceRename, L.AdvanceForget;
      LifecycleInv.StepKeeps(config, View(), L.Proceed(created, stored));
      if |transitions| == 0 { return; }
      var task := transitions[0];
      match task.kind
      case SpawnKind => ProceedSpawn(created);
      case ReconnectKind => ProceedReconnect(created);
      case DespawnKind => ProceedDespawn();
      case RenameKind(_, _) => ProceedRename(created, stored);
      case ForgetKind => ProceedForget(stored);
      case RetryKind =>
        if task.stage == L.Queued {
          EndTransition();
          Connect(task.generation, true, created);
        }
    }
  }

  lemma CancelKeepsQueue(b: L.Bot)
    ensures L.CancelTimer(b).queue == b.queue
  {
  }
}
