/** One game session (runtime/src/protocol-session.js), updated in place and refining mining and item use on values. */
module Sessions {
  import opened Common
  import I = InputModel
  import J = InputJobs
  import M = Mining
  import U = ItemUse
  import opened InputStates

  /** Whether a checked target starts a new block, so that the hands must be free. */
  predicate Begins(m: M.Mining, t: M.Target, loopId: Option<nat>, s: M.Surroundings)
  {
    && !(loopId.Some? && (m.loop.None? || m.loop.value.id != loopId.value))
    && M.TargetRefusal(t, s).None?
    && !M.SameTarget(m, t)
  }

  /** A dimension change ends what had a target there. */
  function AfterCrossing(s: U.Using): U.Using
  {
    if s.attached then s.(inputs := I.StopTargeted(s.inputs, I.DimensionChanged)) else s
  }

  /** Dying stops every input that the session acts on. */
  function AfterDeath(s: U.Using): U.Using
  {
    if s.attached then s.(inputs := I.StopAll(s.inputs, I.OtherReason("died"))) else s
  }

  lemma CrossingIs(s: U.Using)
    ensures U.Apply(s, U.DoChangeDimension) == AfterCrossing(U.Cleared(U.NoTimedUse(s)))
  {
    hide I.CancelTimedUse, I.StopTargeted;
  }

  lemma DeathIs(s: U.Using)
    ensures U.Apply(s, U.DoDie) == U.Cleared(AfterDeath(s))
  {
    hide I.StopAll;
  }

  class BedrockSession {
    /** The Bot's one scheduler; the session acts on it once it was attached. */
    const inputs: InputState
    var attached: bool
    var mining: Option<M.Job>
    var miningLoop: Option<M.Loop>
    var pendingBlockActions: seq<M.Action>
    var activeItemUse: Option<U.Press>
    var releaseItemUseNextTick: bool
    var hotbarSlot: nat
    var heldItem: U.Item
    var pendingInteraction: bool
    var queued: seq<U.Packet>
    var holds: seq<Option<nat>>

    ghost function Block(): M.Mining
      reads this
    {
      M.Mining.Mining(mining, miningLoop, pendingBlockActions)
    }

    ghost function Hand(): U.Using
      reads this, inputs
    {
      U.Using(inputs.View(), attached, activeItemUse, releaseItemUseNextTick, hotbarSlot, heldItem, pendingInteraction,
              holds, queued)
    }

    /** Only a session with its scheduler attached presses anything. */
    ghost predicate Valid()
      reads this, inputs
    {
      inputs.Valid() && (activeItemUse.Some? ==> attached)
    }

    constructor (inputs: InputState)
      requires inputs.Valid()
      ensures Valid() && this.inputs == inputs && Block() == M.IDLE && Hand() == U.First(inputs.View())
    {
      this.inputs := inputs;
      attached, mining, miningLoop, pendingBlockActions := false, None, None, [];
      activeItemUse, releaseItemUseNextTick, hotbarSlot, heldItem := None, false, 0, U.EMPTY_ITEM;
      pendingInteraction, queued, holds := false, [], [];
    }

    // -- mining ------------------------------------------------------------------------

    method StopMining(reason: string, state: M.JobState, discard: bool, preserveLoop: bool)
      requires state != M.Active
      modifies this`mining, this`miningLoop, this`pendingBlockActions
      ensures Block() == M.StopMining(old(Block()), reason, state, discard, preserveLoop)
    {
      var ending := miningLoop.Some? && !preserveLoop;
      var loop := miningLoop;
      if !preserveLoop { miningLoop := None; }
      if mining.Some? && mining.value.state == M.Active {
        var job := mining.value;
        if discard {
          pendingBlockActions := [];
        } else if job.ticks > 0 && job.place.Some? {
          pendingBlockActions := pendingBlockActions + [M.AbortBreak(job.place.value, job.face)];
        } else {
          pendingBlockActions := M.WithoutStarts(pendingBlockActions);
        }
        mining := Some(job.(state := state, reason := reason));
        if ending { mining := Some(M.Carried(mining.value, loop.value)); }
      }
      if ending {
        var job := if mining.Some? then mining.value else M.NO_JOB;
        mining := Some(M.Carried(job.(state := state, reason := reason), loop.value));
      }
      if discard { pendingBlockActions := []; }
    }

    method StartMiningLoop(duration: Option<int>, count: Option<int>, available: bool, id: nat)
      returns (refused: Option<M.Error>)
      modifies this`mining, this`miningLoop, this`pendingBlockActions
      ensures Block() == M.Apply(old(Block()), M.DoStartLoop(duration, count, available, id))
      ensures refused == M.BudgetRefusal(duration, count, available)
    {
      refused := M.BudgetRefusal(duration, count, available);
      if refused.Some? { return; }
      StopMining("continuous mining restarted", M.Canceled, false, false);
      mining := None;
      miningLoop := Some(M.Loop(id, 0, 0, duration, if count.Some? then Some(count.value as nat) else None));
    }

    method StartMining(t: M.Target, loopId: Option<nat>, s: M.Surroundings, ready: bool)
      returns (refused: Option<M.Error>)
      requires Valid()
      modifies this, inputs
      ensures Valid()
      ensures Block() == M.OkOr(M.StartMining(old(Block()), t, loopId, s), old(Block()))
      ensures Hand() == if Begins(old(Block()), t, loopId, s) then U.Apply(old(Hand()), U.DoMine(ready)) else old(Hand())
      ensures refused.Some? <==> M.StartMining(old(Block()), t, loopId, s).Err?
    {
      hide M.StopMining, U.Release, J.Inv, Latest;
      if loopId.Some? && (miningLoop.None? || miningLoop.value.id != loopId.value) { return None; }
      refused := M.TargetRefusal(t, s);
      if refused.Some? { return; }
      if loopId.None? { miningLoop := None; }
      if mining.Some? && mining.value.state == M.Active && mining.value.blockId == t.blockId
         && mining.value.place == Some(t.place) {
        return;
      }
      BeginBlock(t, loopId.Some?, ready);
    }

    /** Queues the start of a new block after taking the old one off the wire. */
    method BeginBlock(t: M.Target, preserveLoop: bool, ready: bool)
      requires Valid()
      modifies this, inputs
      ensures Valid() && Hand() == U.Release(old(Hand()), ready).(interaction := false)
      ensures var stopped := M.StopMining(old(Block()), "target changed", M.Canceled, false, preserveLoop);
        Block() == stopped.(job := Some(M.Job(M.Active, "waiting for BDS", Some(t.place), t.blockId, t.face, 0, None,
                                              None)),
                            pending := stopped.pending + [M.StartBreak(t.place, t.face)])
    {
      hide M.StopMining, U.Release, J.Inv, Latest;
      StopMining("target changed", M.Canceled, false, preserveLoop);
      ReleaseItemUse(ready);
      pendingInteraction := false;
      mining := Some(M.Job(M.Active, "waiting for BDS", Some(t.place), t.blockId, t.face, 0, None, None));
      pendingBlockActions := pendingBlockActions + [M.StartBreak(t.place, t.face)];
    }

    method ContinueMining(loopId: nat, t: Option<M.Target>, s: M.Surroundings, ready: bool)
      requires Valid()
      modifies this, inputs
      ensures Valid()
      ensures Block() == M.Apply(old(Block()), M.DoContinue(loopId, t, s))
      ensures Hand() == if t.Some? && Begins(old(Block()), t.value, Some(loopId), s)
                        then U.Apply(old(Hand()), U.DoMine(ready)) else old(Hand())
    {
      hide M.StopMining;
      if miningLoop.None? || miningLoop.value.id != loopId { return; }
      if t.Some? {
        var refused := StartMining(t.value, Some(loopId), s, ready);
        if refused.Some? { return; }
      }
      if miningLoop.Some? { miningLoop := Some(miningLoop.value.(lease := 0)); }
    }

    method RestartMining()
      modifies this`mining, this`pendingBlockActions
      ensures Block() == M.RestartMining(old(Block()))
    {
      if mining.None? || mining.value.state != M.Active || mining.value.place.None? { return; }
      var job := mining.value;
      if job.ticks > 0 {
        pendingBlockActions := pendingBlockActions + [M.AbortBreak(job.place.value, job.face)];
      } else {
        pendingBlockActions := M.WithoutStarts(pendingBlockActions);
      }
      pendingBlockActions := pendingBlockActions + [M.StartBreak(job.place.value, job.face)];
      mining := Some(job.(ticks := 0));
    }

    method CompleteMining()
      modifies this`mining, this`miningLoop, this`pendingBlockActions
      ensures Block() == M.CompleteMining(old(Block()))
    {
      hide M.StopMining;
      StopMining("BDS changed target block", M.Completed, false, true);
      if miningLoop.None? { return; }
      miningLoop := Some(miningLoop.value.(broken := miningLoop.value.broken + 1));
      if miningLoop.value.count.Some? && miningLoop.value.broken >= miningLoop.value.count.value {
        StopMining("block count reached", M.Completed, false, false);
      }
    }

    method BlockUpdated(place: M.Place, blockId: int)
      modifies this`mining, this`miningLoop, this`pendingBlockActions
      ensures Block() == M.Apply(old(Block()), M.DoBlockUpdate(place, blockId))
    {
      if mining.None? || mining.value.state != M.Active { return; }
      if mining.value.place == Some(place) && mining.value.blockId != blockId { CompleteMining(); }
    }

    method AgeLease()
      modifies this`mining, this`miningLoop, this`pendingBlockActions
      ensures Block() == M.Leased(old(Block()))
    {
      hide M.StopMining;
      if miningLoop.None? { return; }
      miningLoop := Some(miningLoop.value.(lease := miningLoop.value.lease + 1));
      if miningLoop.value.lease >= M.LEASE_TICKS { StopMining("mining controller timed out", M.Failed, false, false); }
    }

    method AgeDuration()
      modifies this`mining, this`miningLoop, this`pendingBlockActions
      ensures Block() == M.Timed(old(Block()))
    {
      hide M.StopMining;
      if miningLoop.None? || miningLoop.value.remaining.None? { return; }
      var left := miningLoop.value.remaining.value;
      miningLoop := Some(miningLoop.value.(remaining := Some(left - 1)));
      if left <= 0 { StopMining("duration elapsed", M.Completed, false, false); }
    }

    method WorkOnBlock(inReach: bool)
      modifies this`mining, this`miningLoop, this`pendingBlockActions
      ensures Block() == M.Worked(old(Block()), inReach)
    {
      hide M.StopMining;
      if mining.None? || mining.value.state != M.Active { return; }
      if !inReach {
        StopMining("target moved out of reach", M.Failed, false, true);
      } else if mining.value.ticks >= M.JOB_TICKS {
        StopMining("timed out waiting for BDS to change target", M.Failed, false, true);
      } else {
        mining := Some(mining.value.(ticks := mining.value.ticks + 1));
      }
    }

    /** Ages the loop and the block in progress, and hands over the queued block actions. */
    method MiningTick(inReach: bool) returns (actions: seq<M.Action>)
      modifies this`mining, this`miningLoop, this`pendingBlockActions
      ensures Block() == M.Apply(old(Block()), M.DoTick(inReach))
      ensures actions == M.Sends(old(Block()), M.DoTick(inReach))
    {
      hide M.Leased, M.Timed, M.Worked;
      AgeLease();
      AgeDuration();
      WorkOnBlock(inReach);
      actions := pendingBlockActions;
      pendingBlockActions := [];
    }

    // -- item use ------------------------------------------------------------------------

    /** Forgets the press in progress and tells the scheduler that its hold is over. */
    method ForgetItemUse()
      requires Valid()
      modifies this`activeItemUse, this`releaseItemUseNextTick, inputs
      ensures Valid() && Hand() == U.Dropped(old(Hand()))
    {
      if activeItemUse.None? { return; }
      var use := activeItemUse.value;
      activeItemUse, releaseItemUseNextTick := None, false;
      if use.hold.Some? && use.revision.Some? { inputs.FinishHold(use.revision.value); }
    }

    method ReleaseItemUse(ready: bool)
      requires Valid()
      modifies this`activeItemUse, this`releaseItemUseNextTick, this`queued, inputs
      ensures Valid() && Hand() == U.Release(old(Hand()), ready)
    {
      hide U.Dropped;
      if activeItemUse.None? { return; }
      var use := activeItemUse.value;
      ForgetItemUse();
      assert queued + [] == queued;
      if use.starting || !ready { return; }
      queued := queued + [U.Packet(U.Releases, use.number, use.slot, use.item)];
    }

    method CancelTimedUse()
      requires Valid()
      modifies inputs
      ensures Valid() && Hand() == U.NoTimedUse(old(Hand()))
    {
      if attached { inputs.CancelTimedUse(I.Reason.Canceled); }
    }

    method ApplyInputs(ready: bool)
      requires Valid()
      modifies this, inputs
      ensures Valid() && Hand() == U.Apply(old(Hand()), U.DoApply(ready)) && Block() == old(Block())
    {
      hide U.Release, J.Inv, Latest;
      attached := true;
      if activeItemUse.None? { return; }
      var use := activeItemUse.value;
      var job := I.Get(inputs.actions, I.Use);
      var mode := if job.Some? then Some(job.value.mode) else None;
      var revision := if job.Some? then Some(job.value.revision) else None;
      var timed := job.Some? && (job.value.duration.Some? || job.value.hold.Some?);
      if mode != Some(use.mode) || (revision != use.revision && (use.timed || use.hold.Some? || timed)) {
        ReleaseItemUse(ready);
      } else {
        activeItemUse := Some(use.(revision := revision));
      }
    }

    /** The selected slot holds another stack now; a new tool starts its block over. */
    method SetHeldItem(item: U.Item)
      requires Valid()
      modifies this, inputs
      ensures Valid() && Hand() == U.SetHeldItem(old(Hand()), item)
      ensures Block() == if old(heldItem).network != item.network then M.RestartMining(old(Block())) else old(Block())
    {
      hide U.Dropped, U.NoTimedUse, M.RestartMining, J.Inv, Latest;
      if heldItem.network != item.network { RestartMining(); }
      heldItem := item;
      if activeItemUse.None? { return; }
      var use := activeItemUse.value;
      if use.slot != hotbarSlot || !U.Usable(item) || use.item != item {
        ForgetItemUse();
        var job := I.Get(inputs.actions, I.Use);
        if (job.None? || job.value.mode != I.Interval)
           && (use.slot != hotbarSlot || !U.Usable(item) || use.item.network != item.network) {
          CancelTimedUse();
        }
      } else {
        activeItemUse := Some(use.(item := item));
      }
    }

    method SelectHotbar(slot: nat, item: U.Item, ready: bool)
      requires Valid()
      modifies this, inputs
      ensures Valid() && Hand() == U.Apply(old(Hand()), U.DoSelect(slot, item, ready))
      ensures var restarted := M.RestartMining(old(Block()));
        Block() == if old(heldItem).network != item.network then M.RestartMining(restarted) else restarted
    {
      hide U.Release, U.NoTimedUse, U.SetHeldItem, M.RestartMining, J.Inv, Latest;
      ghost var before := Hand();
      RestartMining();
      CancelTimedUse();
      ReleaseItemUse(ready);
      hotbarSlot := slot;
      assert Hand() == U.Release(U.NoTimedUse(before), ready).(slot := slot);
      SetHeldItem(item);
    }

    /** A swap or a drop was sent: the press ends before the cached stacks change. */
    method MoveItems(item: U.Item, ready: bool)
      requires Valid()
      modifies this, inputs
      ensures Valid() && Hand() == U.Apply(old(Hand()), U.DoMove(item, ready))
      ensures Block() == if old(heldItem).network != item.network then M.RestartMining(old(Block())) else old(Block())
    {
      hide U.Release, U.NoTimedUse, U.SetHeldItem, M.RestartMining, J.Inv, Latest;
      CancelTimedUse();
      ReleaseItemUse(ready);
      SetHeldItem(item);
    }

    /** The server says which slot is selected and what it holds. */
    method Equip(slot: nat, item: U.Item)
      requires Valid()
      modifies this, inputs
      ensures Valid() && Hand() == U.Apply(old(Hand()), U.DoEquip(slot, item))
      ensures Block() == if old(heldItem).network != item.network then M.RestartMining(old(Block())) else old(Block())
    {
      hide U.SetHeldItem, M.RestartMining, J.Inv, Latest;
      hotbarSlot := slot;
      SetHeldItem(item);
    }

    method ChangeDimension()
      requires Valid()
      modifies this, inputs
      ensures Valid() && Hand() == U.Apply(old(Hand()), U.DoChangeDimension)
      ensures Block() == M.Apply(old(Block()), M.DoDiscard("dimension changed", true))
    {
      hide *;
      CrossingIs(Hand());
      CancelTimedUse();
      Discard("dimension changed", true);
      StopTargets();
    }

    /** Drops the block and the press, with nothing sent for either. */
    method Discard(reason: string, preserveLoop: bool)
      requires Valid()
      modifies this`mining, this`miningLoop, this`pendingBlockActions
      modifies this`activeItemUse, this`releaseItemUseNextTick, this`pendingInteraction
      ensures Valid() && Hand() == U.Cleared(old(Hand()))
      ensures Block() == M.Apply(old(Block()), M.DoDiscard(reason, preserveLoop))
    {
      hide M.StopMining, U.Cleared, J.Inv, Latest;
      StopMining(reason, M.Canceled, true, preserveLoop);
      ClearUse();
    }

    method StopTargets()
      requires Valid()
      modifies inputs
      ensures Valid() && Hand() == AfterCrossing(old(Hand()))
    {
      hide I.StopTargeted, J.Inv, Latest;
      if attached { inputs.StopTargeted(I.DimensionChanged); }
    }

    method RequestRespawn()
      requires Valid()
      modifies this, inputs
      ensures Valid() && Hand() == U.Apply(old(Hand()), U.DoDie)
      ensures Block() == M.Apply(old(Block()), M.DoDiscard("respawning", false))
    {
      hide *;
      DeathIs(Hand());
      StopInputs();
      Discard("respawning", false);
    }

    method StopInputs()
      requires Valid()
      modifies inputs
      ensures Valid() && Hand() == AfterDeath(old(Hand()))
    {
      hide I.StopAll, J.Inv, Latest;
      if attached { inputs.StopAll(I.OtherReason("died")); }
    }

    method ClearUse()
      requires Valid()
      modifies this`activeItemUse, this`releaseItemUseNextTick, this`pendingInteraction
      ensures Valid() && Hand() == U.Cleared(old(Hand()))
    {
      activeItemUse, releaseItemUseNextTick, pendingInteraction := None, false, false;
    }

    // -- one tick --------------------------------------------------------------------------

    method PressIfTriggered(triggered: bool)
      requires Valid() && attached
      modifies this`activeItemUse, this`holds, inputs
      ensures Valid() && Hand() == U.Pressed(old(Hand()), triggered)
    {
      var job := I.Get(inputs.actions, I.Use);
      if triggered && activeItemUse.None? && U.Usable(heldItem) {
        var mode := if job.Some? then job.value.mode else I.Once;
        var revision := if job.Some? then Some(job.value.revision) else None;
        var timed := job.Some? && (job.value.duration.Some? || job.value.hold.Some?);
        var hold := if job.Some? then job.value.hold else None;
        activeItemUse := Some(U.Press(|holds|, hotbarSlot, heldItem, mode, revision, timed, true, hold, 0));
        holds := holds + [hold];
      }
      if triggered && !U.Usable(heldItem) && (job.None? || job.value.mode != I.Interval) {
        inputs.CancelTimedUse(I.Reason.Canceled);
      }
    }

    method SendUse()
      requires Valid()
      modifies this`activeItemUse, this`releaseItemUseNextTick, this`queued, inputs
      ensures Valid() && Hand() == U.Transacted(old(Hand()))
    {
      hide I.StartTimedUse;
      if activeItemUse.None? { return; }
      var use := activeItemUse.value;
      if use.starting && use.revision.Some? { inputs.StartTimedUse(use.revision.value); }
      queued := queued + [U.Packet(if use.starting then U.Starts else U.Continues, use.number, hotbarSlot, heldItem)];
      activeItemUse := Some(use.(starting := false, held := use.held + 1));
      releaseItemUseNextTick := use.mode != I.Continuous && use.hold.None?;
    }

    method ReleaseDue(ready: bool)
      requires Valid()
      modifies this`activeItemUse, this`releaseItemUseNextTick, this`queued, inputs
      ensures Valid() && Hand() == U.ReleasedBefore(old(Hand()), ready)
    {
      hide J.Inv, Latest;
      assert activeItemUse.None? ==> U.Release(Hand(), ready) == Hand();
      hide U.Release;
      if activeItemUse.Some? && releaseItemUseNextTick { ReleaseItemUse(ready); }
      if activeItemUse.Some? && activeItemUse.value.hold.Some? && activeItemUse.value.held >= activeItemUse.value.hold.value {
        ReleaseItemUse(ready);
      }
    }

    /** Steps the scheduler and releases a press that its command has outlived. */
    method StepInputs(ready: bool) returns (triggered: bool)
      requires Valid()
      modifies this`activeItemUse, this`releaseItemUseNextTick, this`queued, inputs
      ensures Valid() && Hand() == U.Stepped(old(Hand()), ready)
      ensures triggered == U.Triggers(I.StepOutput(old(Hand()).inputs).triggered, I.Use)
    {
      hide U.Release, I.Step, I.StepOutput, U.Triggers, J.Inv, Latest;
      var state := inputs.Step();
      triggered := U.Triggers(state.triggered, I.Use);
      var job := I.Get(inputs.actions, I.Use);
      var revision := if job.Some? then Some(job.value.revision) else None;
      if activeItemUse.Some? && (activeItemUse.value.mode == I.Continuous || activeItemUse.value.hold.Some?)
         && revision != activeItemUse.value.revision {
        ReleaseItemUse(ready);
      }
    }

    method SendTick(ready: bool, inReach: bool) returns (blockActions: seq<M.Action>)
      requires Valid()
      modifies this, inputs
      ensures Valid() && Hand() == U.Apply(old(Hand()), U.DoTick(ready))
      ensures Block() == if old(attached) then M.Apply(old(Block()), M.DoTick(inReach)) else old(Block())
      ensures blockActions == if old(attached) then M.Sends(old(Block()), M.DoTick(inReach)) else []
    {
      hide U.ReleasedBefore, U.Stepped, U.Pressed, U.Transacted, M.Apply, M.Sends, I.StepOutput, U.Triggers, J.Inv, Latest;
      blockActions := [];
      if !attached { return; }
      ReleaseDue(ready);
      var triggered := StepInputs(ready);
      blockActions := MiningTick(inReach);
      PressAndSend(triggered);
    }

    /** A block interaction that waits takes the tick's one transaction. */
    method PressAndSend(triggered: bool)
      requires Valid() && attached
      modifies this`activeItemUse, this`holds, this`releaseItemUseNextTick, this`queued, this`pendingInteraction, inputs
      ensures Valid()
      ensures var pressed := U.Pressed(old(Hand()).(interaction := false), triggered);
        Hand() == if old(pendingInteraction) then pressed else U.Transacted(pressed)
    {
      hide U.Pressed, U.Transacted, J.Inv, Latest;
      var busy := pendingInteraction;
      pendingInteraction := false;
      PressIfTriggered(triggered);
      if !busy { SendUse(); }
    }
  }
}
