/** The pressing, holding and releasing of the held item (runtime/src/protocol-session.js) as operations on values. */
module ItemUse {
  import opened Common
  import opened InputModel

  /** What tells one stack from another while it is being used. */
  datatype Item = Item(network: int, metadata: int, stack: Option<int>)

  const EMPTY_ITEM := Item(0, 0, None)

  predicate Usable(item: Item) { item.network != 0 }

  /** One press of the use button; `press` numbers the presses of a session. */
  datatype Press = Press(number: nat, slot: nat, item: Item, mode: Mode, revision: Option<nat>, timed: bool, starting: bool,
                     hold: Option<nat>, held: nat)

  datatype Kind = Starts | Continues | Releases

  /** A use transaction or a release on the wire. */
  datatype Packet = Packet(kind: Kind, press: nat, slot: nat, item: Item)

  /** `holds` is the hold asked of every press so far, `sent` every transaction sent, both oldest first. */
  datatype Using = Using(inputs: Inputs, attached: bool, active: Option<Press>, releaseNext: bool, slot: nat, held: Item,
                         interaction: bool, holds: seq<Option<nat>>, sent: seq<Packet>)

  /** A new session; the scheduler is the Bot's own and may have run through earlier sessions. */
  function First(inputs: Inputs): Using { Using(inputs, false, None, false, 0, EMPTY_ITEM, false, [], []) }

  function UseMode(s: Inputs): Option<Mode>
  {
    var job := Get(s.jobs, Use);
    if job.Some? then Some(job.value.mode) else None
  }

  function UseRevision(s: Inputs): Option<nat>
  {
    var job := Get(s.jobs, Use);
    if job.Some? then Some(job.value.revision) else None
  }

  function UseHold(s: Inputs): Option<nat>
  {
    var job := Get(s.jobs, Use);
    if job.Some? then job.value.hold else None
  }

  predicate Triggers(jobs: seq<Job>, action: Action) { Find(jobs, action) < |jobs| }

  function NoTimedUse(s: Using): Using
  {
    if s.attached then s.(inputs := CancelTimedUse(s.inputs, Reason.Canceled)) else s
  }

  /** Forgets the press, and tells the scheduler that its hold is over. */
  function Dropped(s: Using): Using
  {
    if s.active.None? then s
    else
      var use := s.active.value;
      var finished := if use.hold.Some? && use.revision.Some? then FinishHold(s.inputs, use.revision.value) else s.inputs;
      s.(active := None, releaseNext := false, inputs := finished)
  }

  /** A deferred press has not pressed the button yet, so nothing is sent for it. */
  function Release(s: Using, ready: bool): Using
  {
    if s.active.None? then s
    else
      var use := s.active.value;
      var packet := if use.starting || !ready then [] else [Packet(Releases, use.number, use.slot, use.item)];
      Dropped(s).(sent := s.sent + packet)
  }

  function ApplyInputs(s: Using, ready: bool): Using
  {
    var attached := s.(attached := true);
    if s.active.None? then attached
    else
      var use := s.active.value;
      var changed := UseRevision(s.inputs) != use.revision;
      if UseMode(s.inputs) != Some(use.mode)
         || (changed && (use.timed || use.hold.Some? || HasTimedUse(s.inputs)))
      then Release(attached, ready)
      else attached.(active := Some(use.(revision := UseRevision(s.inputs))))
  }

  function SetHeldItem(s: Using, item: Item): Using
  {
    var changed := s.(held := item);
    if s.active.None? then changed
    else
      var use := s.active.value;
      if use.slot != s.slot || !Usable(item) || use.item != item then
        var dropped := Dropped(changed);
        if UseMode(dropped.inputs) != Some(Interval)
           && (use.slot != s.slot || !Usable(item) || use.item.network != item.network)
        then NoTimedUse(dropped) else dropped
      else changed.(active := Some(use.(item := item)))
  }

  function SelectHotbar(s: Using, slot: nat, item: Item, ready: bool): Using
  {
    SetHeldItem(Release(NoTimedUse(s), ready).(slot := slot), item)
  }

  /** A swap or a drop changes what the selected slot holds. */
  function MoveItems(s: Using, item: Item, ready: bool): Using
  {
    SetHeldItem(Release(NoTimedUse(s), ready), item)
  }

  function Cleared(s: Using): Using { s.(active := None, releaseNext := false, interaction := false) }

  // -- one tick ----------------------------------------------------------------------

  predicate HoldSpent(s: Using)
  {
    s.active.Some? && s.active.value.hold.Some? && s.active.value.held >= s.active.value.hold.value
  }

  predicate Outlived(s: Using)
  {
    && s.active.Some? && (s.active.value.mode == Continuous || s.active.value.hold.Some?)
    && UseRevision(s.inputs) != s.active.value.revision
  }

  /** The releases that are due before the scheduler steps. */
  function ReleasedBefore(s: Using, ready: bool): Using
  {
    var next := if s.releaseNext then Release(s, ready) else s;
    if HoldSpent(next) then Release(next, ready) else next
  }

  function Stepped(s: Using, ready: bool): Using
  {
    var next := s.(inputs := Step(s.inputs));
    if Outlived(next) then Release(next, ready) else next
  }

  function Pressed(s: Using, triggered: bool): Using
  {
    if triggered && s.active.None? && Usable(s.held) then
      var mode := if UseMode(s.inputs).Some? then UseMode(s.inputs).value else Once;
      s.(active := Some(Press(|s.holds|, s.slot, s.held, mode, UseRevision(s.inputs), HasTimedUse(s.inputs), true,
                                UseHold(s.inputs), 0)),
         holds := s.holds + [UseHold(s.inputs)])
    else if triggered && !Usable(s.held) && UseMode(s.inputs) != Some(Interval)
    then s.(inputs := CancelTimedUse(s.inputs, Reason.Canceled))
    else s
  }

  function Transacted(s: Using): Using
  {
    if s.active.None? then s
    else
      var use := s.active.value;
      var inputs := if use.starting && use.revision.Some? then StartTimedUse(s.inputs, use.revision.value) else s.inputs;
      s.(inputs := inputs,
         sent := s.sent + [Packet(if use.starting then Starts else Continues, use.number, s.slot, s.held)],
         active := Some(use.(starting := false, held := use.held + 1)),
         releaseNext := use.mode != Continuous && use.hold.None?)
  }

  /** A pending block interaction takes the tick's one transaction. */
  function Tick(s: Using, ready: bool): Using
  {
    if !s.attached then s
    else
      var before := ReleasedBefore(s, ready);
      var triggered := Triggers(StepOutput(before.inputs).triggered, Use);
      var stepped := Stepped(before, ready);
      var pressed := Pressed(stepped.(interaction := false), triggered);
      if stepped.interaction then pressed else Transacted(pressed)
  }

  // -- runs ----------------------------------------------------------------------------

  datatype Event =
    | DoCommand(call: InputModel.Event)
    | DoApply(ready: bool)
    | DoTick(ready: bool)
    | DoSelect(to: nat, item: Item, ready: bool)
    | DoMove(item: Item, ready: bool)
    | DoEquip(to: nat, item: Item)
    | DoInteract
    | DoMine(ready: bool)
    | DoChangeDimension
    | DoDie
    | DoDisconnect

  /** Only the session's own tick steps the scheduler, so a command that would is ignored. */
  function Apply(s: Using, e: Event): Using
  {
    match e
    case DoCommand(call) => if call.DoStep? then s else s.(inputs := InputModel.Apply(s.inputs, call))
    case DoApply(ready) => ApplyInputs(s, ready)
    case DoTick(ready) => Tick(s, ready)
    case DoSelect(to, item, ready) => SelectHotbar(s, to, item, ready)
    case DoMove(item, ready) => MoveItems(s, item, ready)
    case DoEquip(to, item) => SetHeldItem(s.(slot := to), item)
    case DoInteract => s.(interaction := true)
    case DoMine(ready) => Release(s, ready).(interaction := false)
    case DoChangeDimension =>
      var cleared := Cleared(NoTimedUse(s));
      if s.attached then cleared.(inputs := StopTargeted(cleared.inputs, DimensionChanged)) else cleared
    case DoDie => Cleared(if s.attached then s.(inputs := StopAll(s.inputs, OtherReason("died"))) else s)
    case DoDisconnect => NoTimedUse(s)
  }

  function Run(s: Using, es: seq<Event>): Using
    decreases |es|
  {
    if es == [] then s else Run(Apply(s, es[0]), es[1..])
  }
}
