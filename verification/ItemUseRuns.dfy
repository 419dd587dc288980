/** What the item use of a session keeps over every run. */
module ItemUseRuns {
  import opened Common
  import opened InputModel
  import opened InputJobs
  import opened ItemUse

  // -- the transactions on the wire ------------------------------------------------------

  /** A start opens a new press; anything else directly continues the press before it, unless that was released. */
  predicate Follows(sent: seq<Packet>, p: Packet)
  {
    if p.kind == Starts then forall i :: 0 <= i < |sent| ==> sent[i].press < p.press
    else sent != [] && sent[|sent| - 1].kind != Releases && sent[|sent| - 1] == p.(kind := sent[|sent| - 1].kind)
  }

  predicate Paired(sent: seq<Packet>)
  {
    sent == [] || (Paired(sent[..|sent| - 1]) && Follows(sent[..|sent| - 1], sent[|sent| - 1]))
  }

  /** How many use transactions of one press were sent. */
  function Uses(sent: seq<Packet>, press: nat): nat
  {
    if sent == [] then 0
    else Uses(sent[..|sent| - 1], press)
         + if sent[|sent| - 1].press == press && sent[|sent| - 1].kind != Releases then 1 else 0
  }

  lemma Sending(sent: seq<Packet>, p: Packet)
    ensures Paired(sent + [p]) <==> Paired(sent) && Follows(sent, p)
    ensures forall q :: Uses(sent + [p], q) == Uses(sent, q) + if p.press == q && p.kind != Releases then 1 else 0
  {
    assert (sent + [p])[..|sent|] == sent;
  }

  // -- the invariant ---------------------------------------------------------------------

  ghost predicate Numbered(s: Using) { forall i :: 0 <= i < |s.sent| ==> s.sent[i].press < |s.holds| }

  ghost predicate Limited(s: Using)
  {
    forall p :: 0 <= p < |s.holds| && s.holds[p].Some? ==> Uses(s.sent, p) <= s.holds[p].value
  }

  /** The button is down for the latest press: what was sent for it is what it counts. */
  ghost predicate Down(s: Using, use: Press)
  {
    && s.attached && use.number + 1 == |s.holds| && s.holds[use.number] == use.hold
    && Uses(s.sent, use.number) == use.held && (use.starting <==> use.held == 0)
    && (use.hold.Some? ==> use.hold.value >= 1 && use.revision.Some?)
    && (s.releaseNext ==> !use.starting && use.mode != Continuous && use.hold.None?)
    && (if use.starting then forall i :: 0 <= i < |s.sent| ==> s.sent[i].press < use.number
        else s.sent != [] && s.sent[|s.sent| - 1].kind != Releases
             && s.sent[|s.sent| - 1] == Packet(s.sent[|s.sent| - 1].kind, use.number, use.slot, use.item))
  }

  ghost predicate Wire(s: Using)
  {
    && Paired(s.sent) && Numbered(s) && Limited(s)
    && (s.active.Some? ==> Down(s, s.active.value))
    && (s.active.None? ==> !s.releaseNext)
  }

  /** The press uses the stack that is held in the selected slot. */
  predicate Held(s: Using)
  {
    s.active.Some? ==> s.active.value.slot == s.slot && s.active.value.item == s.held && Usable(s.held)
  }

  ghost predicate Good(s: Using) { Inv(s.inputs) && Wire(s) && Held(s) }

  // -- each operation keeps it -------------------------------------------------------------

  lemma DroppedKeeps(s: Using)
    requires Inv(s.inputs) && Wire(s)
    ensures Inv(Dropped(s).inputs) && Wire(Dropped(s)) && Dropped(s).active.None?
  {
    hide Inv, Uses, Paired;
    if s.active.Some? && s.active.value.revision.Some? {
      ApplyKeeps(s.inputs, DoFinishHold(s.active.value.revision.value));
    }
  }

  lemma ReleaseKeeps(s: Using, ready: bool)
    requires Inv(s.inputs) && Wire(s)
    ensures Inv(Release(s, ready).inputs) && Wire(Release(s, ready)) && Release(s, ready).active.None?
  {
    hide Inv, Uses, Paired;
    if s.active.Some? {
      DroppedKeeps(s);
      var use := s.active.value;
      var p := Packet(Releases, use.number, use.slot, use.item);
      Sending(s.sent, p);
      assert s.sent + [] == s.sent;
      var r := Release(s, ready);
      assert Limited(r) by {
        forall q | 0 <= q < |r.holds| && r.holds[q].Some? ensures Uses(r.sent, q) <= r.holds[q].value {
          assert Uses(s.sent, q) <= s.holds[q].value;
        }
      }
    }
  }

  lemma NoTimedUseKeeps(s: Using)
    requires Inv(s.inputs) && Wire(s)
    ensures Inv(NoTimedUse(s).inputs) && Wire(NoTimedUse(s))
  {
    hide Inv, Uses, Paired, CancelTimedUse;
    ApplyKeeps(s.inputs, DoCancelTimedUse(Reason.Canceled));
  }

  lemma SetHeldKeeps(s: Using, item: Item)
    requires Inv(s.inputs) && Wire(s)
    ensures Good(SetHeldItem(s, item))
  {
    hide Inv, Uses, Paired, NoTimedUse, Dropped;
    var changed := s.(held := item);
    if s.active.Some? {
      DroppedKeeps(changed);
      NoTimedUseKeeps(Dropped(changed));
      NoTimedUseActive(Dropped(changed));
    }
  }

  lemma NoTimedUseActive(s: Using)
    ensures NoTimedUse(s) == s.(inputs := NoTimedUse(s).inputs)
  {
  }

  lemma ApplyInputsKeeps(s: Using, ready: bool)
    requires Good(s)
    ensures Good(ApplyInputs(s, ready))
  {
    hide Inv, Uses, Paired, Release, UseMode, UseRevision, HasTimedUse;
    ReleaseKeeps(s.(attached := true), ready);
  }

  lemma TransactedInputs(s: Using)
    requires Inv(s.inputs)
    ensures Inv(Transacted(s).inputs)
  {
    hide Inv, StartTimedUse;
    if s.active.Some? && s.active.value.revision.Some? {
      ApplyKeeps(s.inputs, DoStartTimedUse(s.active.value.revision.value));
    }
  }

  lemma TransactedWire(s: Using)
    requires Wire(s) && Held(s) && !HoldSpent(s)
    ensures Wire(Transacted(s)) && Held(Transacted(s))
  {
    hide Uses, Paired, StartTimedUse;
    if s.active.Some? {
      var use := s.active.value;
      var p := Packet(if use.starting then Starts else Continues, use.number, s.slot, s.held);
      Sending(s.sent, p);
      var r := Transacted(s);
      assert Limited(r) by {
        forall q | 0 <= q < |r.holds| && r.holds[q].Some? ensures Uses(r.sent, q) <= r.holds[q].value {
          assert Uses(s.sent, q) <= s.holds[q].value;
        }
      }
    }
  }

  lemma TransactedKeeps(s: Using)
    requires Good(s) && !HoldSpent(s)
    ensures Good(Transacted(s))
  {
    hide Inv, Wire, Held, Transacted;
    TransactedInputs(s);
    TransactedWire(s);
  }

  lemma HoldAtLeastOne(s: Inputs)
    requires Inv(s)
    ensures UseHold(s).Some? ==> UseHold(s).value >= 1 && UseRevision(s).Some?
  {
    hide OnePlace, EndsOlder;
    var i := Find(s.jobs, Use);
    if i < |s.jobs| { assert JobOk(s.jobs[i], s.tick); }
  }

  lemma {:induction false} NoneSent(sent: seq<Packet>, press: nat)
    requires forall i :: 0 <= i < |sent| ==> sent[i].press < press
    ensures Uses(sent, press) == 0
  {
    if sent != [] {
      var before := sent[..|sent| - 1];
      assert sent[|sent| - 1].press < press;
      assert forall i :: 0 <= i < |before| ==> before[i] == sent[i];
      NoneSent(before, press);
    }
  }

  lemma PressedKeeps(s: Using, triggered: bool)
    requires Good(s) && s.attached && !HoldSpent(s)
    ensures Good(Pressed(s, triggered)) && !HoldSpent(Pressed(s, triggered))
  {
    hide Inv, Uses, Paired, UseMode, UseRevision, HasTimedUse, UseHold, CancelTimedUse;
    ApplyKeeps(s.inputs, DoCancelTimedUse(Reason.Canceled));
    if triggered && s.active.None? && Usable(s.held) {
      HoldAtLeastOne(s.inputs);
      NoneSent(s.sent, |s.holds|);
    }
  }

  lemma TickKeeps(s: Using, ready: bool)
    requires Good(s)
    ensures Good(Tick(s, ready))
  {
    hide Inv, Wire, Release, Stepped, Pressed, Transacted, Triggers, Step, StepOutput;
    if s.attached {
      BeforeKeeps(s, ready);
      var before := ReleasedBefore(s, ready);
      var triggered := Triggers(StepOutput(before.inputs).triggered, Use);
      SteppedKeeps(before, ready);
      var stepped := Stepped(before, ready);
      InteractionKeeps(stepped, false);
      PressedKeeps(stepped.(interaction := false), triggered);
      TransactedKeeps(Pressed(stepped.(interaction := false), triggered));
    }
  }

  lemma InteractionKeeps(s: Using, interaction: bool)
    requires Good(s)
    ensures Good(s.(interaction := interaction))
  {
    hide Inv, Uses, Paired;
  }

  lemma BeforeKeeps(s: Using, ready: bool)
    requires Good(s) && s.attached
    ensures Good(ReleasedBefore(s, ready)) && !HoldSpent(ReleasedBefore(s, ready)) && ReleasedBefore(s, ready).attached
  {
    hide Inv, Wire;
    ReleaseKeeps(s, ready);
    var next := if s.releaseNext then Release(s, ready) else s;
    ReleaseKeeps(next, ready);
  }

  lemma SteppedKeeps(s: Using, ready: bool)
    requires Good(s) && s.attached && !HoldSpent(s)
    ensures Good(Stepped(s, ready)) && !HoldSpent(Stepped(s, ready)) && Stepped(s, ready).attached
  {
    hide Inv, Uses, Paired, Step, UseRevision;
    ApplyKeeps(s.inputs, InputModel.DoStep);
    var next := s.(inputs := Step(s.inputs));
    assert Wire(next);
    ReleaseKeeps(next, ready);
  }

  lemma ClearedKeeps(s: Using)
    requires Inv(s.inputs) && Wire(s)
    ensures Good(Cleared(s))
  {
    hide Inv, Uses, Paired;
  }

  lemma InputsKeep(s: Using, inputs: Inputs)
    requires Wire(s) && Inv(inputs)
    ensures Wire(s.(inputs := inputs))
  {
    hide Inv, Uses, Paired;
  }

  lemma SlotKeeps(s: Using, slot: nat)
    requires Wire(s)
    ensures Wire(s.(slot := slot))
  {
    hide Inv, Uses, Paired;
  }

  lemma ApplyGood(s: Using, e: ItemUse.Event)
    requires Good(s)
    ensures Good(ItemUse.Apply(s, e))
  {
    hide Inv, Wire, Release, NoTimedUse, SetHeldItem, Cleared, InputModel.Apply, Tick, ApplyInputs, StopTargeted, StopAll;
    match e
    case DoCommand(call) => ApplyKeeps(s.inputs, call); InputsKeep(s, InputModel.Apply(s.inputs, call));
    case DoApply(ready) => ApplyInputsKeeps(s, ready);
    case DoTick(ready) => TickKeeps(s, ready);
    case DoSelect(to, item, ready) =>
      NoTimedUseKeeps(s);
      ReleaseKeeps(NoTimedUse(s), ready);
      SlotKeeps(Release(NoTimedUse(s), ready), to);
      SetHeldKeeps(Release(NoTimedUse(s), ready).(slot := to), item);
    case DoMove(item, ready) =>
      NoTimedUseKeeps(s);
      ReleaseKeeps(NoTimedUse(s), ready);
      SetHeldKeeps(Release(NoTimedUse(s), ready), item);
    case DoEquip(to, item) =>
      SlotKeeps(s, to);
      SetHeldKeeps(s.(slot := to), item);
    case DoInteract => InteractionKeeps(s, true);
    case DoMine(ready) => ReleaseKeeps(s, ready); InteractionKeeps(Release(s, ready), false);
    case DoChangeDimension => DimensionKeeps(s);
    case DoDie => DeathKeeps(s);
    case DoDisconnect => NoTimedUseKeeps(s); NoTimedUseActive(s);
  }

  lemma DimensionKeeps(s: Using)
    requires Good(s)
    ensures Good(ItemUse.Apply(s, DoChangeDimension))
  {
    hide Inv, Wire, NoTimedUse, StopTargeted, Cleared;
    NoTimedUseKeeps(s);
    var cleared := Cleared(NoTimedUse(s));
    ClearedKeeps(NoTimedUse(s));
    ApplyKeeps(cleared.inputs, DoStopTargeted(DimensionChanged));
    InputsKeep(cleared, StopTargeted(cleared.inputs, DimensionChanged));
  }

  lemma DeathKeeps(s: Using)
    requires Good(s)
    ensures Good(ItemUse.Apply(s, DoDie))
  {
    hide Inv, Wire, StopAll, Cleared;
    ApplyKeeps(s.inputs, DoStopAll(OtherReason("died")));
    InputsKeep(s, StopAll(s.inputs, OtherReason("died")));
    ClearedKeeps(if s.attached then s.(inputs := StopAll(s.inputs, OtherReason("died"))) else s);
  }

  lemma {:induction false} RunGood(s: Using, es: seq<ItemUse.Event>)
    requires Good(s)
    ensures Good(ItemUse.Run(s, es))
    decreases |es|
  {
    hide Good, ItemUse.Apply;
    if es != [] {
      ApplyGood(s, es[0]);
      RunGood(ItemUse.Apply(s, es[0]), es[1..]);
    }
  }

  lemma FirstGood(inputs: Inputs)
    requires Inv(inputs)
    ensures Good(First(inputs))
  {
    hide Inv;
  }

  // -- what the server sees of every press ---------------------------------------------------

  /** Packet `i` belongs to the press that packet `j` started: nothing but that press lies between them. */
  ghost predicate Spans(sent: seq<Packet>, j: nat, i: nat)
  {
    && j <= i < |sent| && sent[j].kind == Starts
    && sent[i] == sent[j].(kind := sent[i].kind) && (j < i ==> sent[i].kind != Starts)
    && forall k :: j < k < i ==> sent[k] == sent[j].(kind := Continues)
  }

  lemma {:induction false} StartOf(sent: seq<Packet>, i: nat) returns (j: nat)
    requires Paired(sent) && i < |sent|
    ensures Spans(sent, j, i)
    decreases |sent|, i
  {
    var before := sent[..|sent| - 1];
    if i < |sent| - 1 {
      j := StartOf(before, i);
      assert forall k :: 0 <= k < |before| ==> before[k] == sent[k];
    } else if sent[i].kind == Starts {
      j := i;
    } else {
      j := StartOf(before, i - 1);
      assert forall k :: 0 <= k < |before| ==> before[k] == sent[k];
      assert before[|before| - 1] == sent[i - 1];
    }
  }

  /** Press numbers never fall, and rise past every release and at every start. */
  lemma {:induction false} PressesRise(sent: seq<Packet>, i: nat, k: nat)
    requires Paired(sent) && i < k < |sent|
    ensures sent[i].press <= sent[k].press
    ensures sent[i].kind == Releases || sent[k].kind == Starts ==> sent[i].press < sent[k].press
    decreases |sent|
  {
    var before := sent[..|sent| - 1];
    assert forall n :: 0 <= n < |before| ==> before[n] == sent[n];
    if k < |sent| - 1 {
      PressesRise(before, i, k);
    } else if sent[k].kind != Starts && i < k - 1 {
      PressesRise(before, i, k - 1);
    }
  }

  /**
   * Over every run: a release or a continued use belongs to a start sent before it, with the same slot and stack and
   * nothing else between; each press has at most one start and at most one release, and nothing after the release.
   */
  lemma UsesPair(inputs: Inputs, es: seq<ItemUse.Event>, i: nat)
    requires Inv(inputs) && i < |ItemUse.Run(First(inputs), es).sent|
    ensures var sent := ItemUse.Run(First(inputs), es).sent;
      && (exists j: nat :: Spans(sent, j, i))
      && (forall k :: i < k < |sent| && (sent[i].kind == Releases || sent[k].kind == Starts)
                      ==> sent[k].press != sent[i].press)
  {
    FirstGood(inputs);
    RunGood(First(inputs), es);
    var sent := ItemUse.Run(First(inputs), es).sent;
    var j := StartOf(sent, i);
    forall k | i < k < |sent| && (sent[i].kind == Releases || sent[k].kind == Starts)
      ensures sent[k].press != sent[i].press
    {
      PressesRise(sent, i, k);
    }
  }

  /** Over every run no press with a hold ever sends more uses than its hold. */
  lemma HoldNeverExceeded(inputs: Inputs, es: seq<ItemUse.Event>, press: nat)
    requires Inv(inputs)
    requires var s := ItemUse.Run(First(inputs), es); press < |s.holds| && s.holds[press].Some?
    ensures var s := ItemUse.Run(First(inputs), es); Uses(s.sent, press) <= s.holds[press].value
  {
    FirstGood(inputs);
    RunGood(First(inputs), es);
  }

  /** A tick releases a press for its hold exactly when that many uses were sent for it, and sends it no more. */
  lemma HoldLimitIsExact(inputs: Inputs, es: seq<ItemUse.Event>)
    requires Inv(inputs)
    requires var s := ItemUse.Run(First(inputs), es); s.active.Some? && s.active.value.hold.Some?
    ensures var s := ItemUse.Run(First(inputs), es);
      var use := s.active.value;
      && (HoldSpent(s) <==> Uses(s.sent, use.number) == use.hold.value)
      && (HoldSpent(s) ==> var r := Tick(s, true);
            && |r.sent| > |s.sent| && r.sent[..|s.sent|] == s.sent
            && r.sent[|s.sent|] == Packet(Releases, use.number, use.slot, use.item)
            && Uses(r.sent, use.number) == use.hold.value)
  {
    FirstGood(inputs);
    RunGood(First(inputs), es);
    var s := ItemUse.Run(First(inputs), es);
    var use := s.active.value;
    if HoldSpent(s) {
      HoldRelease(s);
      assert Uses(s.sent, use.number) <= s.holds[use.number].value;
    }
  }

  lemma HoldRelease(s: Using)
    requires Good(s) && HoldSpent(s)
    ensures var r, use := Tick(s, true), s.active.value;
      && |r.sent| > |s.sent| && r.sent[..|s.sent|] == s.sent
      && r.sent[|s.sent|] == Packet(Releases, use.number, use.slot, use.item)
      && Uses(r.sent, use.number) == Uses(s.sent, use.number)
  {
    hide Inv, Uses, Paired, Step, StepOutput, Triggers, UseMode, UseRevision, UseHold, HasTimedUse;
    var use := s.active.value;
    var p := Packet(Releases, use.number, use.slot, use.item);
    var before := ReleasedBefore(s, true);
    assert before.sent == s.sent + [p] && before.active.None? && !s.releaseNext;
    Sending(s.sent, p);
    var stepped := Stepped(before, true);
    var pressed := Pressed(stepped.(interaction := false), Triggers(StepOutput(before.inputs).triggered, Use));
    assert pressed.sent == s.sent + [p];
    if pressed.active.Some? {
      assert pressed.active.value.number == |s.holds|;
      Sending(pressed.sent, Packet(Starts, |s.holds|, pressed.slot, pressed.held));
    }
  }

  // -- a hold left to itself ---------------------------------------------------------------------

  /** An event after which the press is still down under the same command: it is left alone. */
  predicate LeavesAlone(s: Using, e: ItemUse.Event)
    requires s.active.Some?
  {
    var use := s.active.value;
    match e
    case DoTick(_) => !HoldSpent(s) && UseRevision(Step(s.inputs)) == use.revision
    case DoCommand(_) => true
    case DoApply(_) => UseRevision(s.inputs) == use.revision && UseMode(s.inputs) == Some(use.mode)
    case DoEquip(to, item) => to == use.slot && item == use.item
    case DoInteract => true
    case _ => false
  }

  /** Every event of the run leaves the press alone. */
  predicate AllLeaveAlone(s: Using, es: seq<ItemUse.Event>)
    decreases |es|
  {
    es == []
    || (s.active.Some? && LeavesAlone(s, es[0]) && AllLeaveAlone(ItemUse.Apply(s, es[0]), es[1..]))
  }

  /** The ticks of a run whose transaction no block interaction takes. */
  function FreeTicks(s: Using, es: seq<ItemUse.Event>): nat
    decreases |es|
  {
    if es == [] then 0
    else (if es[0].DoTick? && !s.interaction then 1 else 0) + FreeTicks(ItemUse.Apply(s, es[0]), es[1..])
  }

  /** The press after so many more uses, and the transactions that send them. */
  function After(use: Press, uses: nat): Press
  {
    if uses == 0 then use else use.(starting := false, held := use.held + uses)
  }

  function Sends(use: Press, uses: nat): seq<Packet>
    decreases uses
  {
    if uses == 0 then []
    else [Packet(if use.starting then Starts else Continues, use.number, use.slot, use.item)]
         + Sends(use.(starting := false), uses - 1)
  }

  /** The button is down for a hold. */
  ghost predicate Holding(s: Using) { Good(s) && s.active.Some? && s.active.value.hold.Some? }

  /** A tick in which nothing ends the press does no more than step the scheduler and send a transaction. */
  lemma TickSteps(s: Using, ready: bool)
    requires Holding(s) && LeavesAlone(s, DoTick(ready))
    ensures var stepped := s.(inputs := Step(s.inputs), interaction := false);
      Tick(s, ready) == if s.interaction then stepped else Transacted(stepped)
  {
    hide Inv, Uses, Paired, Numbered, Limited, Step, StepOutput, Triggers, UseMode, UseHold, UseRevision, HasTimedUse,
      CancelTimedUse, Transacted, Release;
    assert ReleasedBefore(s, ready) == s;
    assert Stepped(s, ready) == s.(inputs := Step(s.inputs));
  }

  /** One more use of a press that is down. */
  lemma UseSent(s: Using)
    requires s.active.Some? && Held(s)
    ensures var r, use := Transacted(s), s.active.value;
      r.active == Some(After(use, 1)) && r.sent == s.sent + Sends(use, 1)
  {
    var use := s.active.value;
    NoSends(use.(starting := false));
    var packet := Packet(if use.starting then Starts else Continues, use.number, use.slot, use.item);
    assert [packet] + [] == [packet];
  }

  lemma TickLeft(s: Using, ready: bool)
    requires Holding(s) && LeavesAlone(s, DoTick(ready))
    ensures var r, use, uses := Tick(s, ready), s.active.value, if s.interaction then 0 else 1;
      Good(r) && r.active == Some(After(use, uses)) && r.sent == s.sent + Sends(use, uses)
  {
    TickKeeps(s, ready);
    TickSteps(s, ready);
    NoSends(s.active.value);
    UseSent(s.(inputs := Step(s.inputs), interaction := false));
    hide Inv, Wire, Step, Tick, Transacted, Sends, LeavesAlone;
    assert s.sent + [] == s.sent;
  }

  lemma EventLeft(s: Using, e: ItemUse.Event)
    requires Holding(s) && LeavesAlone(s, e)
    ensures var r, use := ItemUse.Apply(s, e), s.active.value;
      var uses := if e.DoTick? && !s.interaction then 1 else 0;
      Good(r) && r.active == Some(After(use, uses)) && r.sent == s.sent + Sends(use, uses)
  {
    ApplyGood(s, e);
    hide Inv, Uses, Paired, Step, UseMode, UseHold, HasTimedUse, UseRevision, Tick, InputModel.Apply;
    if e.DoTick? { TickLeft(s, e.ready); } else { assert s.sent + [] == s.sent; }
  }

  /**
   * A press with a hold, left alone from any moment on: every tick that no block interaction takes sends one use of it,
   * never past its hold, and when the uses sent are exactly the hold, the next tick first releases it.
   */
  lemma {:induction false} HoldRunsItsLength(s: Using, es: seq<ItemUse.Event>)
    requires Holding(s) && AllLeaveAlone(s, es)
    ensures var r, use, uses := ItemUse.Run(s, es), s.active.value, FreeTicks(s, es);
      && r.active == Some(After(use, uses)) && r.sent == s.sent + Sends(use, uses)
      && Uses(r.sent, use.number) == use.held + uses <= use.hold.value
      && (use.held + uses == use.hold.value ==> var next := Tick(r, true);
            |next.sent| > |r.sent| && next.sent[..|r.sent|] == r.sent
            && next.sent[|r.sent|] == Packet(Releases, use.number, use.slot, use.item))
    decreases |es|
  {
    hide Good, Tick, LeavesAlone, ItemUse.Apply, Sends;
    var use := s.active.value;
    if es == [] {
      HoldReached(s);
      assert Sends(use, 0) == [] by { NoSends(use); }
      assert s.sent + [] == s.sent;
    } else {
      var next, uses := ItemUse.Apply(s, es[0]), if es[0].DoTick? && !s.interaction then 1 else 0;
      EventLeft(s, es[0]);
      HoldRunsItsLength(next, es[1..]);
      SendsSplit(s, use, uses, FreeTicks(next, es[1..]));
    }
  }

  lemma NoSends(use: Press)
    ensures Sends(use, 0) == []
  {
  }

  lemma SendsSplit(s: Using, use: Press, uses: nat, more: nat)
    requires uses <= 1
    ensures s.sent + Sends(use, uses) + Sends(After(use, uses), more) == s.sent + Sends(use, uses + more)
    ensures After(After(use, uses), more) == After(use, uses + more)
  {
    if uses == 0 {
      assert s.sent + [] == s.sent;
    } else {
      SendsFrom(use.(starting := false), use.held + 1, more);
      assert Sends(use, 1) + Sends(use.(starting := false), more) == Sends(use, 1 + more);
    }
  }

  /** How many uses a press has behind it does not matter to what is sent. */
  lemma {:induction false} SendsFrom(use: Press, held: nat, uses: nat)
    ensures Sends(use.(held := held), uses) == Sends(use, uses)
    decreases uses
  {
    if uses > 0 { SendsFrom(use.(starting := false), held, uses - 1); }
  }

  lemma HoldReached(s: Using)
    requires Holding(s)
    ensures var next, use := Tick(s, true), s.active.value;
      && Uses(s.sent, use.number) == use.held <= use.hold.value
      && (use.held == use.hold.value ==>
            && |next.sent| > |s.sent| && next.sent[..|s.sent|] == s.sent
            && next.sent[|s.sent|] == Packet(Releases, use.number, use.slot, use.item))
  {
    hide Tick, Inv, Paired, Numbered;
    var use := s.active.value;
    assert s.holds[use.number] == use.hold;
    assert Uses(s.sent, use.number) <= s.holds[use.number].value;
    if use.held == use.hold.value { HoldRelease(s); }
  }

  /** A use command that is not ended in a tick keeps its press: the tick leaves it alone. */
  lemma RunningLeavesAlone(s: Using, ready: bool)
    requires Holding(s) && !HoldSpent(s)
    requires var job := Get(s.inputs.jobs, Use);
      && job.Some? && Some(job.value.revision) == s.active.value.revision && job.value.hold.Some?
      && (job.value.endTick.None? || job.value.endTick.value > s.inputs.tick + 1)
    ensures LeavesAlone(s, DoTick(ready))
  {
    hide OnePlace, EndsOlder, Wire;
    var inputs, i := s.inputs, Find(s.inputs.jobs, Use);
    var job := inputs.jobs[i];
    assert JobOk(job, inputs.tick);
    var kept := SweepJob(job, inputs.tick + 1).kept;
    assert |kept| == 1 && kept[0].action == Use && kept[0].revision == job.revision;
    SweepOf(inputs.jobs, inputs.tick + 1, i);
    assert kept[0] in kept;
    StepJobs(inputs);
    var r := Step(inputs);
    var k :| 0 <= k < |r.jobs| && r.jobs[k] == kept[0];
    FindIn(r.jobs, k);
  }

  lemma {:induction false} FindIn(jobs: seq<Job>, i: nat)
    requires Distinct(jobs) && i < |jobs|
    ensures Find(jobs, jobs[i].action) == i
  {
    var n := Find(jobs, jobs[i].action);
    assert n <= i && jobs[n].action == jobs[i].action;
  }
}
