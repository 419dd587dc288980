/** The scheduler object of runtime/src/actions.js, updated in place and refining the operations on values. */
module InputStates {
  import opened Common
  import opened InputModel
  import opened InputJobs

  /** The last end of each channel: what the object keeps of the history of ends. */
  function Latest(ends: seq<End>): map<Channel, End>
  {
    if ends == [] then map[]
    else Latest(ends[..|ends| - 1])[ends[|ends| - 1].channel := ends[|ends| - 1]]
  }

  lemma {:induction false} LatestAppend(ends: seq<End>, more: seq<End>)
    ensures Latest(ends + more) == Latest(ends) + Latest(more)
  {
    if more == [] {
      assert ends + more == ends;
    } else {
      assert (ends + more)[..|ends + more| - 1] == ends + more[..|more| - 1];
      LatestAppend(ends, more[..|more| - 1]);
    }
  }

  lemma SplitNone(reason: Reason)
    ensures Untargeted([]) == [] && EndsOf(Targeted([]), reason) == []
  {
  }

  lemma SplitNext(jobs: seq<Job>, n: nat, reason: Reason)
    requires n < |jobs|
    ensures Untargeted(jobs[..n + 1]) == Untargeted(jobs[..n]) + if jobs[n].target.Some? then [] else [jobs[n]]
    ensures EndsOf(Targeted(jobs[..n + 1]), reason)
            == EndsOf(Targeted(jobs[..n]), reason) + if jobs[n].target.Some? then [EndOf(jobs[n], reason)] else []
  {
    assert jobs[..n + 1][..n] == jobs[..n];
    var gone := Targeted(jobs[..n]);
    if jobs[n].target.Some? { assert (gone + [jobs[n]])[..|gone|] == gone; } else { assert gone + [] == gone; }
  }

  lemma SweepNone(tick: nat)
    ensures Sweep([], tick) == Swept([], [], [])
  {
  }

  lemma SweepNext(jobs: seq<Job>, n: nat, tick: nat)
    requires n < |jobs|
    ensures var before, last, after := Sweep(jobs[..n], tick), SweepJob(jobs[n], tick), Sweep(jobs[..n + 1], tick);
      after.kept == before.kept + last.kept && after.ended == before.ended + last.ended
      && after.fired == before.fired + last.fired
  {
    hide SweepJob;
    assert jobs[..n + 1][..n] == jobs[..n];
  }

  class InputState {
    var tick: nat
    var actions: seq<Job>
    var actionSequence: nat
    var movement: Option<Direction>
    var movementEndTick: Option<nat>
    var movementJob: Option<nat>
    var ended: map<Channel, End>
    var teleports: nat
    var sprint: bool
    var sneak: bool
    var transitions: seq<Transition>
    ghost var history: seq<End>

    ghost function View(): Inputs
      reads this
    {
      Inputs(tick, actions, actionSequence, movement, movementEndTick, movementJob, history, teleports, sprint,
                    sneak, transitions)
    }

    /** The object keeps only the last end of each channel, and its jobs are well formed. */
    ghost predicate Valid()
      reads this
    {
      ended == Latest(history) && Inv(View())
    }

    constructor ()
      ensures Valid() && View() == EMPTY
    {
      tick, actions, actionSequence := 0, [], 0;
      movement, movementEndTick, movementJob := None, None, None;
      ended, teleports, sprint, sneak, transitions := map[], 0, false, false, [];
      history := [];
      new;
      EmptyOk();
    }

    method RecordEnd(channel: Channel, job: nat, reason: Reason)
      requires ended == Latest(history)
      modifies this`ended, this`history
      ensures ended == Latest(history) && history == old(history) + [End(channel, job, reason)]
    {
      ended := ended[channel := End(channel, job, reason)];
      history := history + [End(channel, job, reason)];
    }

    method EndAction(action: Action, reason: Reason)
      requires ended == Latest(history)
      modifies this`actions, this`ended, this`history
      ensures ended == Latest(history) && View() == InputModel.EndAction(old(View()), action, reason)
    {
      hide Latest;
      var i := Find(actions, action);
      if i == |actions| { return; }
      var state := actions[i];
      actions := Without(actions, i);
      RecordEnd(ActionChannel(action), state.revision, reason);
    }

    method SetAction(r: Request) returns (refused: Option<Error>)
      requires Valid()
      modifies this
      ensures Valid() && View() == Apply(old(View()), DoSetAction(r)) && refused == Refusal(r)
    {
      hide Inv, Latest;
      refused := Refusal(r);
      ApplyKeeps(View(), DoSetAction(r));
      if refused.Some? { return; }
      if r.mode == Stop {
        EndAction(r.action, r.reason);
        return;
      }
      EndAction(r.action, Replaced);
      var state := Job(r.action, r.mode, IntervalOf(r), At(tick + 1), actionSequence + 1, None, None,
                       if r.hold.Some? then Some(r.hold.value as nat) else None, r.target, r.count);
      if r.duration.Some? {
        if LegacyTimedUse(r) { state := state.(duration := Some(r.duration.value)); }
        else { state := state.(endTick := Some(tick + 1 + r.duration.value)); }
      }
      actionSequence := actionSequence + 1;
      actions := actions + [state];
    }

    method StopTargeted(reason: Reason)
      requires Valid()
      modifies this
      ensures Valid() && View() == Apply(old(View()), DoStopTargeted(reason))
    {
      hide Inv, Latest, Untargeted, Targeted, EndsOf;
      ghost var all, ends := actions, history;
      ApplyKeeps(View(), DoStopTargeted(reason));
      assert Apply(View(), DoStopTargeted(reason)) == InputModel.StopTargeted(View(), reason);
      hide Apply;
      SplitNone(reason);
      var i := 0;
      ghost var seen := 0;
      while i < |actions|
        invariant 0 <= i <= |actions| && 0 <= seen <= |all| && |actions| - i == |all| - seen
        invariant actions[..i] == Untargeted(all[..seen]) && actions[i..] == all[seen..]
        invariant history == ends + EndsOf(Targeted(all[..seen]), reason)
        invariant ended == Latest(history)
        invariant View() == old(View()).(jobs := actions, ends := history)
        decreases |actions| - i
      {
        ghost var rest := actions[i..];
        assert actions[i] == rest[0] == all[seen] && rest[1..] == all[seen + 1..];
        SplitNext(all, seen, reason);
        if actions[i].target.Some? {
          var state := actions[i];
          actions := Without(actions, i);
          assert actions[i..] == rest[1..];
          RecordEnd(ActionChannel(state.action), state.revision, reason);
        } else {
          assert actions[..i + 1] == actions[..i] + [rest[0]] && actions[i + 1..] == rest[1..];
          i := i + 1;
        }
        seen := seen + 1;
      }
      assert all[..seen] == all && actions[..i] == actions;
    }

    /** One trigger reached an entity. */
    method CountHit(action: Action, revision: nat)
      requires Valid()
      modifies this
      ensures Valid() && View() == Apply(old(View()), DoCountHit(action, revision))
    {
      hide Inv, Latest;
      ApplyKeeps(View(), DoCountHit(action, revision));
      var i := Find(actions, action);
      if i == |actions| || actions[i].revision != revision || actions[i].remaining.None? { return; }
      var left := actions[i].remaining.value - 1;
      actions := actions[i := actions[i].(remaining := Some(left))];
      if left <= 0 { EndAction(action, CountReached); }
    }

    method StartTimedUse(revision: nat)
      requires Valid()
      modifies this
      ensures Valid() && View() == Apply(old(View()), DoStartTimedUse(revision))
    {
      hide Inv, Latest;
      ApplyKeeps(View(), DoStartTimedUse(revision));
      var i := Find(actions, Use);
      if i < |actions| && actions[i].revision == revision && actions[i].duration.Some? && actions[i].endTick.None? {
        actions := actions[i := actions[i].(endTick := Some(tick + actions[i].duration.value))];
      }
    }

    method FinishHold(revision: nat)
      requires Valid()
      modifies this
      ensures Valid() && View() == Apply(old(View()), DoFinishHold(revision))
    {
      hide Inv, Latest;
      ApplyKeeps(View(), DoFinishHold(revision));
      var i := Find(actions, Use);
      if i < |actions| && actions[i].revision == revision && actions[i].hold.Some? && actions[i].mode == Once {
        EndAction(Use, Completed);
      }
    }

    method CancelTimedUse(reason: Reason)
      requires Valid()
      modifies this
      ensures Valid() && View() == Apply(old(View()), DoCancelTimedUse(reason))
    {
      hide Inv, Latest;
      ApplyKeeps(View(), DoCancelTimedUse(reason));
      var i := Find(actions, Use);
      if i < |actions| && (actions[i].duration.Some? || actions[i].hold.Some?) { EndAction(Use, reason); }
    }

    method Halt(reason: Reason)
      requires ended == Latest(history)
      modifies this`movement, this`movementJob, this`movementEndTick, this`ended, this`history
      ensures ended == Latest(history) && View() == Halted(old(View()), reason)
    {
      hide Latest;
      if movementJob.Some? {
        RecordEnd(MoveChannel, movementJob.value, reason);
      } else {
        assert history == history + [];
      }
      movement, movementJob, movementEndTick := None, None, None;
    }

    method SetMovement(direction: Direction, duration: Option<int>, reason: Reason) returns (refused: Option<Error>)
      requires Valid()
      modifies this
      ensures Valid() && View() == Apply(old(View()), DoSetMovement(direction, duration, reason))
      ensures refused == MovementRefusal(direction, duration)
    {
      hide Inv, Latest;
      refused := MovementRefusal(direction, duration);
      ApplyKeeps(View(), DoSetMovement(direction, duration, reason));
      if refused.Some? { return; }
      Halt(if direction == Direction.Halt then reason else Replaced);
      if direction != Direction.Halt {
        actionSequence := actionSequence + 1;
        movement, movementJob := Some(direction), Some(actionSequence);
        if duration.Some? { movementEndTick := Some(tick + 1 + duration.value); }
      }
    }

    method SetFlag(flag: Flag, value: bool)
      requires Valid()
      modifies this`sprint, this`sneak, this`transitions
      ensures Valid() && View() == Apply(old(View()), DoSetFlag(flag, value))
    {
      hide Inv, Latest;
      ApplyKeeps(View(), DoSetFlag(flag, value));
      var current := if flag == Sprint then sprint else sneak;
      if current == value { return; }
      if flag == Sprint { sprint := value; } else { sneak := value; }
      transitions := transitions + [Transition(flag, value)];
    }

    /** Ends every action, in the order they were set, and the movement. */
    method EndEverything(reason: Reason)
      requires ended == Latest(history)
      modifies this`actions, this`ended, this`history, this`movement, this`movementJob, this`movementEndTick
      ensures ended == Latest(history) && View() == EndAll(old(View()), reason)
    {
      hide Latest;
      ghost var all := actions;
      ghost var ends := history;
      ghost var seen := 0;
      while actions != []
        invariant 0 <= seen <= |all| && actions == all[seen..]
        invariant history == ends + EndsOf(all[..seen], reason) && ended == Latest(history)
        invariant View() == old(View()).(jobs := actions, ends := history)
        decreases |actions|
      {
        assert all[..seen + 1][..seen] == all[..seen];
        var state := actions[0];
        actions := actions[1..];
        RecordEnd(ActionChannel(state.action), state.revision, reason);
        seen := seen + 1;
      }
      assert all[..seen] == all;
      assert View() == old(View()).(jobs := [], ends := ends + EndsOf(all, reason));
      Halt(reason);
    }

    method StopAll(reason: Reason)
      requires Valid()
      modifies this
      ensures Valid() && View() == Apply(old(View()), DoStopAll(reason))
    {
      hide Inv, Latest;
      ghost var before := View();
      EndEverything(reason);
      EndAllKeeps(before, reason);
      SetFlag(Sprint, false);
      SetFlag(Sneak, false);
    }

    method Reset(reason: Reason)
      requires Valid()
      modifies this
      ensures Valid() && View() == Apply(old(View()), DoReset(reason))
    {
      hide Inv, Latest;
      ApplyKeeps(View(), DoReset(reason));
      EndEverything(reason);
      sprint, sneak, transitions := false, false, [];
    }

    /** One tick: ends what is due, reports what triggers, and hands over the pending transitions. */
    method Step() returns (out: Output)
      requires Valid()
      modifies this
      ensures Valid() && View() == Apply(old(View()), DoStep) && out == StepOutput(old(View()))
    {
      hide Inv, Latest;
      ghost var before := View();
      ApplyKeeps(before, DoStep);
      assert Apply(before, DoStep) == InputModel.Step(before);
      hide Apply, Sweep;
      tick := tick + 1;
      if movementEndTick.Some? && tick >= movementEndTick.value { Halt(DurationElapsed); }
      assert View() == BeginStep(before);
      var triggered := SweepActions();
      out := Output(tick, triggered, transitions, movement, sprint, sneak);
      transitions := [];
    }

    method SweepActions() returns (triggered: seq<Job>)
      requires ended == Latest(history)
      modifies this`actions, this`ended, this`history
      ensures ended == Latest(history)
      ensures var swept := Sweep(old(actions), tick);
              && View() == old(View()).(jobs := swept.kept, ends := old(history) + swept.ended)
              && triggered == swept.fired
    {
      hide Latest, Sweep;
      ghost var all := actions;
      ghost var ends := history;
      triggered := [];
      SweepNone(tick);
      var i := 0;
      ghost var seen := 0;
      while i < |actions|
        invariant 0 <= i <= |actions| && 0 <= seen <= |all| && |actions| - i == |all| - seen
        invariant actions[..i] == Sweep(all[..seen], tick).kept && actions[i..] == all[seen..]
        invariant history == ends + Sweep(all[..seen], tick).ended && ended == Latest(history)
        invariant triggered == Sweep(all[..seen], tick).fired
        decreases |actions| - i
      {
        var state := actions[i];
        assert state == actions[i..][0] == all[seen];
        ghost var done, rest := actions[..i], actions[i..];
        assert rest[1..] == all[seen + 1..];
        SweepNext(all, seen, tick);
        seen := seen + 1;
        if state.endTick.Some? && tick >= state.endTick.value {
          actions := Without(actions, i);
          assert actions[i..] == rest[1..] && actions[..i] == done;
          RecordEnd(ActionChannel(state.action), state.revision, DurationElapsed);
        } else if state.next.Never? || tick < state.next.tick {
          assert actions[..i + 1] == done + [state] && actions[i + 1..] == rest[1..];
          i := i + 1;
        } else {
          triggered := triggered + [state];
          if state.mode == Once && state.hold.None? {
            actions := Without(actions, i);
            assert actions[i..] == rest[1..] && actions[..i] == done;
            RecordEnd(ActionChannel(state.action), state.revision, Completed);
          } else {
            var later := if state.mode == Once then Never else At(tick + state.interval);
            actions := actions[i := state.(next := later)];
            assert actions[..i + 1] == done + [state.(next := later)] && actions[i + 1..] == rest[1..];
            i := i + 1;
          }
        }
      }
      assert all[..seen] == all;
    }
  }
}
