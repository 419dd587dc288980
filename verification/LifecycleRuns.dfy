/** What the lifecycle promises over every run from boot. */
module LifecycleRuns {
  import opened Common
  import opened Lifecycle
  import opened LifecycleInv

  // -- one session at a time ---------------------------------------------------------------

  /**
   * In every reachable state at most one session is open, and unless the runtime is closing it is the one the
   * Bot's state object holds.
   */
  lemma AtMostOneOpen(c: Config, profile: Profile, now: int, created: bool, es: seq<Event>)
    ensures var b := Run(c, Started(c, profile, now, created), es);
            && (forall x, y :: x in b.open && y in b.open ==> x == y)
            && (!b.closing ==> forall s :: s in b.open ==> HasSession(b) && Current(b).session == Some(s))
  {
    StartedOk(c, profile, now, created);
    RunKeeps(c, Started(c, profile, now, created), es);
  }

  /** The steps that may open a session: the last of a transition, or a retry. */
  predicate AboutToConnect(b: Bot)
  {
    |b.queue| > 0 &&
    var t := b.queue[0];
    || (t.kind.SpawnKind? && t.stage == Prepared(true))
    || (t.kind.ReconnectKind? && t.stage.Delaying?)
    || (t.kind.RenameKind? && t.kind.wasOnline && t.stage.Delaying?)
    || (t.kind.RetryKind? && t.stage.Queued?)
  }

  /** When a session is about to be opened the last one is known to be closed, so opening is never refused. */
  lemma NeverRefused(b: Bot)
    requires Inv(b) && AboutToConnect(b) && MayConnect(b, b.queue[0].generation)
    ensures !HasSession(b) && b.open == {}
  {
    assert TaskOk(b, 0);
    if b.queue[0].kind.RetryKind? { assert CurrentRetry(b, b.queue[0]); }
  }

  /** Nothing but a new session adds to the attempts. */
  lemma DisconnectedOpensNothing(c: Config, b: Bot, generation: nat, session: Option<nat>, notReady: bool)
    ensures Disconnected(c, b, generation, session, notReady).attempts == b.attempts
  {
  }

  lemma ConnectOpens(c: Config, b: Bot, generation: nat, reconnecting: bool, created: bool)
    ensures var r := Connect(c, b, generation, reconnecting, created);
            r.attempts == b.attempts
            || (MayConnect(b, generation) && !HasSession(b) && created
                && r.attempts == b.attempts + [Attempt(generation, |b.objects|)])
  {
  }

  /** What a step may add to the attempts: nothing, or one under the latest generation at the moment to connect. */
  ghost predicate Opens(b: Bot, r: Bot)
  {
    r.attempts == b.attempts
    || (AboutToConnect(b) && MayConnect(b, b.queue[0].generation)
        && |r.attempts| == |b.attempts| + 1 && r.attempts[..|b.attempts|] == b.attempts
        && r.attempts[|b.attempts|].generation == b.generation)
  }

  lemma PopConnectOpens(c: Config, b: Bot, reconnecting: bool, created: bool)
    requires AboutToConnect(b)
    ensures Opens(b, Connect(c, Pop(b), b.queue[0].generation, reconnecting, created))
    ensures Opens(b, Connect(c, ResetRetryBudget(Pop(b)), b.queue[0].generation, reconnecting, created))
  {
    ConnectOpens(c, Pop(b), b.queue[0].generation, reconnecting, created);
    ConnectOpens(c, ResetRetryBudget(Pop(b)), b.queue[0].generation, reconnecting, created);
    hide Connect;
  }

  lemma BeginEndOpens(b: Bot)
    requires |b.queue| > 0
    ensures BeginEnd(b).attempts == b.attempts && BeginEnd(b).profile == b.profile
    ensures BeginEnd(ResetRetryBudget(b)).attempts == b.attempts && BeginEnd(ResetRetryBudget(b)).profile == b.profile
  {
  }

  lemma StoreNameOpens(c: Config, b: Bot, created: bool, stored: bool)
    requires |b.queue| > 0 && b.queue[0].kind.RenameKind? && (b.queue[0].kind.wasOnline ==> AboutToConnect(b))
    ensures Opens(b, StoreName(c, b, created, stored))
  {
    hide Connect, ResetRetryBudget;
    var t := b.queue[0];
    if t.kind.wasOnline {
      var named := if stored && b.profile.Some? then b.(profile := Some(b.profile.value.(name := t.kind.newName))) else b;
      assert AboutToConnect(named);
      PopConnectOpens(c, named, true, created);
    }
  }

  lemma AdvanceOpens(c: Config, b: Bot, created: bool, stored: bool)
    requires Inv(b)
    ensures Opens(b, Advance(c, b, created, stored))
  {
    if |b.queue| > 0 {
      assert TaskOk(b, 0);
      hide Inv;
      HeadOpens(c, b, created, stored);
    }
  }

  lemma HeadOpens(c: Config, b: Bot, created: bool, stored: bool)
    requires |b.queue| > 0 && TaskOk(b, 0)
    ensures Opens(b, Advance(c, b, created, stored))
  {
    var t := b.queue[0];
    match t.kind
    case SpawnKind => SpawnOpens(c, b, created);
    case RenameKind(_, _) => RenameOpens(c, b, created, stored);
    case ReconnectKind => ReconnectOpens(c, b, created);
    case RetryKind => ReconnectOpens(c, b, created);
    case DespawnKind =>
      BeginEndOpens(b);
      SameOpens(b, AdvanceDespawn(b));
    case ForgetKind => SameOpens(b, AdvanceForget(b, stored));
  }

  lemma SpawnOpens(c: Config, b: Bot, created: bool)
    requires |b.queue| > 0 && b.queue[0].kind.SpawnKind?
    ensures Opens(b, AdvanceSpawn(c, b, created))
  {
    BeginEndOpens(b);
    if AboutToConnect(b) { PopConnectOpens(c, b, false, created); }
    hide Connect, ResetRetryBudget, BeginEnd, Opens;
    var r := AdvanceSpawn(c, b, created);
    if r.attempts == b.attempts { SameOpens(b, r); }
  }

  lemma ReconnectOpens(c: Config, b: Bot, created: bool)
    requires |b.queue| > 0
    ensures b.queue[0].kind.ReconnectKind? ==> Opens(b, AdvanceReconnect(c, b, created))
    ensures b.queue[0].kind.RetryKind? ==> Opens(b, AdvanceRetry(c, b, created))
  {
    BeginEndOpens(b);
    if AboutToConnect(b) { PopConnectOpens(c, b, true, created); }
    hide Connect, ResetRetryBudget, BeginEnd, Opens;
    var r, q := AdvanceReconnect(c, b, created), AdvanceRetry(c, b, created);
    if r.attempts == b.attempts { SameOpens(b, r); }
    if q.attempts == b.attempts { SameOpens(b, q); }
  }

  lemma RenameOpens(c: Config, b: Bot, created: bool, stored: bool)
    requires |b.queue| > 0 && TaskOk(b, 0) && b.queue[0].kind.RenameKind?
    ensures Opens(b, AdvanceRename(c, b, created, stored))
  {
    var t := b.queue[0];
    BeginEndOpens(b);
    if t.kind.wasOnline ==> t.stage.Delaying? { StoreNameOpens(c, b, created, stored); }
    hide Connect, ResetRetryBudget, BeginEnd, StoreName, Opens;
    var r := AdvanceRename(c, b, created, stored);
    if r.attempts == b.attempts { SameOpens(b, r); }
  }

  lemma SameOpens(b: Bot, r: Bot)
    requires r.attempts == b.attempts
    ensures Opens(b, r)
  {
  }

  lemma StepOpens(c: Config, b: Bot, e: Event)
    requires Inv(b)
    ensures Opens(b, Step(c, b, e))
  {
    match e
    case Proceed(created, stored) => AdvanceOpens(c, b, created, stored);
    case ConnectFailed(session, notReady) =>
      if session in b.flights && session < |b.attempts| {
        DisconnectedOpensNothing(c, b.(flights := b.flights - {session}, open := b.open - {session}),
                                 b.attempts[session].generation, HeldBy(b, session), notReady);
      }
    case Closed(session, notReady) =>
      if session < |b.attempts| && session !in b.emitted {
        DisconnectedOpensNothing(c, b.(emitted := b.emitted + {session}, open := b.open - {session}),
                                 b.attempts[session].generation, Some(session), notReady);
      }
    case _ =>
  }

  /**
   * In every reachable state, a step opens at most one session, only while none is open and none is held, only for
   * a Bot that should be online, and only under the generation of the latest intent.
   */
  lemma OpensUnderLatestIntent(c: Config, profile: Profile, now: int, created: bool, es: seq<Event>, e: Event)
    ensures var b := Run(c, Started(c, profile, now, created), es);
            var r := Step(c, b, e);
            r.attempts != b.attempts ==>
              && b.open == {} && !HasSession(b) && Desired(b) && !b.closing
              && |r.attempts| == |b.attempts| + 1 && r.attempts[..|b.attempts|] == b.attempts
              && r.attempts[|b.attempts|].generation == b.generation
  {
    hide Step;
    var b := Run(c, Started(c, profile, now, created), es);
    StartedOk(c, profile, now, created);
    RunKeeps(c, Started(c, profile, now, created), es);
    StepOpens(c, b, e);
    if Step(c, b, e).attempts != b.attempts { NeverRefused(b); }
  }

  // -- a despawned Bot stays away ---------------------------------------------------------------

  lemma StillUndesired(c: Config, b: Bot, e: Event)
    requires Inv(b) && !Desired(b) && !e.Spawn?
    ensures !Desired(Step(c, b, e)) && Step(c, b, e).attempts == b.attempts
  {
    StepOpens(c, b, e);
    match e
    case Proceed(created, stored) => AdvanceUndesired(c, b, created, stored);
    case _ =>
  }

  lemma AdvanceUndesired(c: Config, b: Bot, created: bool, stored: bool)
    requires Inv(b) && !Desired(b)
    ensures !Desired(Advance(c, b, created, stored))
  {
    if |b.queue| > 0 {
      var t := b.queue[0];
      var named := if stored && b.profile.Some? && t.kind.RenameKind?
                   then b.(profile := Some(b.profile.value.(name := t.kind.newName))) else b;
      ConnectNothing(c, ResetRetryBudget(Pop(b)), t.generation, false, created);
      ConnectNothing(c, Pop(b), t.generation, true, created);
      ConnectNothing(c, ResetRetryBudget(Pop(named)), t.generation, true, created);
      hide Connect;
    }
  }

  /** From the moment a Bot should be offline, no session is opened until a spawn or a resume asks for one. */
  lemma {:induction false} NoneOpenedUntilSpawn(c: Config, b: Bot, es: seq<Event>)
    requires Inv(b) && !Desired(b)
    requires forall k :: 0 <= k < |es| ==> !es[k].Spawn?
    ensures Run(c, b, es).attempts == b.attempts
    decreases |es|
  {
    hide Step, Inv;
    if es != [] {
      StepKeeps(c, b, es[0]);
      StillUndesired(c, b, es[0]);
      NoneOpenedUntilSpawn(c, Step(c, b, es[0]), es[1..]);
    }
  }

  /** After an accepted despawn, whatever was queued or in flight, no session is opened without a spawn or resume. */
  lemma NoSessionAfterDespawn(c: Config, profile: Profile, now: int, created: bool, before: seq<Event>,
                              after: seq<Event>)
    requires forall k :: 0 <= k < |after| ==> !after[k].Spawn?
    ensures var b := Run(c, Started(c, profile, now, created), before);
            var d := Step(c, b, Despawn(true));
            d.attempts == b.attempts && Run(c, d, after).attempts == b.attempts
  {
    hide Step;
    var b := Run(c, Started(c, profile, now, created), before);
    StartedOk(c, profile, now, created);
    RunKeeps(c, Started(c, profile, now, created), before);
    StepKeeps(c, b, Despawn(true));
    DespawnDesire(c, b);
    NoneOpenedUntilSpawn(c, Step(c, b, Despawn(true)), after);
  }

  lemma DespawnDesire(c: Config, b: Bot)
    ensures !Desired(Step(c, b, Despawn(true))) && Step(c, b, Despawn(true)).attempts == b.attempts
  {
  }

  // -- a Bot that should be online is never lost ------------------------------------------------------

  /**
   * In every reachable state of a Bot that should be online, while the runtime is not closing, no transition is
   * queued and no connect is in flight, it is online with a session, reconnecting with an armed timer, or failed.
   */
  lemma NeverSilentlyLost(c: Config, profile: Profile, now: int, created: bool, es: seq<Event>)
    ensures var b := Run(c, Started(c, profile, now, created), es);
            Desired(b) && !b.closing && b.queue == [] && b.flights == {} ==>
              && HasEntry(b)
              && (|| (Current(b).phase == Online && Current(b).session.Some?)
                  || (Current(b).phase == Reconnecting && Current(b).timer.Some? && Current(b).timer.value in b.timers
                      && b.timers[Current(b).timer.value].generation == b.generation)
                  || Current(b).phase == Failed)
  {
    StartedOk(c, profile, now, created);
    RunKeeps(c, Started(c, profile, now, created), es);
  }

  /**
   * In every reachable state the session a Bot holds was opened under the latest intent, or a transition in the
   * queue will try to close it, or a close that failed has left the Bot failed.
   */
  lemma HeldSessionIsCurrentOrLeaving(c: Config, profile: Profile, now: int, created: bool, es: seq<Event>)
    ensures var b := Run(c, Started(c, profile, now, created), es);
            !b.closing && HasSession(b) ==>
              || (Desired(b) && Current(b).session.value < |b.attempts|
                  && b.attempts[Current(b).session.value].generation == b.generation)
              || (exists i :: 0 <= i < |b.queue| && WillClose(b, b.queue[i]))
              || Current(b).phase == Failed
  {
    StartedOk(c, profile, now, created);
    RunKeeps(c, Started(c, profile, now, created), es);
  }

  // -- a lost session is counted once -------------------------------------------------------------------

  /** The session whose loss this event makes the lifecycle act on. */
  function LossOf(b: Bot, e: Event): Option<nat>
  {
    match e
    case ConnectFailed(session, _) =>
      if session in b.flights && session < |b.attempts|
         && Handles(b, b.attempts[session].generation, HeldBy(b, session)) then Some(session) else None
    case Closed(session, _) =>
      if session < |b.attempts| && session !in b.emitted
         && Handles(b, b.attempts[session].generation, Some(session)) then Some(session) else None
    case _ => None
  }

  function Losses(c: Config, b: Bot, es: seq<Event>): seq<nat>
    decreases |es|
  {
    if es == [] then []
    else (if LossOf(b, es[0]).Some? then [LossOf(b, es[0]).value] else []) + Losses(c, Step(c, b, es[0]), es[1..])
  }

  ghost predicate Holds(b: Bot, session: nat)
  {
    exists o :: 0 <= o < |b.objects| && b.objects[o].session == Some(session)
  }

  /** Every session an object holds was held before, or is new. */
  ghost predicate Inherits(b: Bot, r: Bot)
  {
    |r.attempts| >= |b.attempts| &&
    forall o :: 0 <= o < |r.objects| && r.objects[o].session.Some? ==>
      r.objects[o].session.value >= |b.attempts| || Holds(b, r.objects[o].session.value)
  }

  lemma UpdateInherits(b: Bot, slot: nat, state: BotState, r: Bot)
    requires r.objects == Update(b, slot, state).objects && |r.attempts| >= |b.attempts|
    requires slot < |b.objects| && (state.session.None? || state.session == b.objects[slot].session)
    ensures Inherits(b, r)
  {
  }

  lemma EnterInherits(b: Bot, state: BotState, r: Bot)
    requires r.objects == b.objects + [state] && |r.attempts| >= |b.attempts|
    requires state.session.None? || (HasEntry(b) && state.session == Current(b).session)
    ensures Inherits(b, r)
  {
  }

  lemma SameObjectsInherit(b: Bot, r: Bot)
    requires r.objects == b.objects && |r.attempts| >= |b.attempts|
    ensures Inherits(b, r)
  {
  }

  lemma CancelInherits(b: Bot)
    ensures Inherits(b, CancelTimer(b))
  {
  }

  lemma Transitive(a: Bot, b: Bot, d: Bot)
    requires Inherits(a, b) && Inherits(b, d)
    ensures Inherits(a, d)
  {
  }

  lemma DisconnectedInherits(c: Config, b: Bot, generation: nat, session: Option<nat>, notReady: bool)
    ensures Inherits(b, Disconnected(c, b, generation, session, notReady))
  {
    if Handles(b, generation, session) {
      var e := if HasEntry(b) then b else Enter(b, NewState(Offline, None));
      var r := Disconnected(c, b, generation, session, notReady);
      assert r.objects == Update(e, e.entry.value, Current(r)).objects && Current(r).session.None?;
      EnterInherits(b, NewState(Offline, None), Enter(b, NewState(Offline, None)));
      SameObjectsInherit(b, b);
      UpdateInherits(e, e.entry.value, Current(r), r);
      hide Disconnected;
      Transitive(b, e, r);
    } else {
      SameObjectsInherit(b, b);
    }
  }

  lemma ConnectInherits(c: Config, b: Bot, generation: nat, reconnecting: bool, created: bool)
    ensures Inherits(b, Connect(c, b, generation, reconnecting, created))
  {
    SameObjectsInherit(b, b);
    if MayConnect(b, generation) && !HasSession(b) {
      var state := NewState(if reconnecting then Reconnecting else Connecting, Previous(b)).(timer := None, handled := None);
      EnterInherits(b, state, Enter(b, state));
      if !created {
        DisconnectedInherits(c, Enter(b, state), generation, None, false);
        hide Disconnected;
        Transitive(b, Enter(b, state), Connect(c, b, generation, reconnecting, created));
      }
    }
  }

  lemma BeginEndInherits(b: Bot)
    requires |b.queue| > 0
    ensures Inherits(b, BeginEnd(b))
  {
    CancelInherits(b);
  }

  lemma ResetInherits(b: Bot)
    ensures Inherits(b, ResetRetryBudget(b))
  {
  }

  lemma PopConnectInherits(c: Config, b: Bot, generation: nat, reconnecting: bool, created: bool)
    requires |b.queue| > 0
    ensures Inherits(b, Connect(c, Pop(b), generation, reconnecting, created))
    ensures Inherits(b, Connect(c, ResetRetryBudget(Pop(b)), generation, reconnecting, created))
  {
    hide Connect, ResetRetryBudget;
    SameObjectsInherit(b, Pop(b));
    ResetInherits(Pop(b));
    ConnectInherits(c, Pop(b), generation, reconnecting, created);
    ConnectInherits(c, ResetRetryBudget(Pop(b)), generation, reconnecting, created);
    Transitive(b, Pop(b), ResetRetryBudget(Pop(b)));
    Transitive(b, Pop(b), Connect(c, Pop(b), generation, reconnecting, created));
    Transitive(b, ResetRetryBudget(Pop(b)), Connect(c, ResetRetryBudget(Pop(b)), generation, reconnecting, created));
  }

  lemma StoreNameInherits(c: Config, b: Bot, created: bool, stored: bool)
    requires |b.queue| > 0 && b.queue[0].kind.RenameKind?
    ensures Inherits(b, StoreName(c, b, created, stored))
  {
    hide Connect, ResetRetryBudget;
    var t := b.queue[0];
    var named := if stored && b.profile.Some? then b.(profile := Some(b.profile.value.(name := t.kind.newName))) else b;
    SameObjectsInherit(b, named);
    SameObjectsInherit(b, Pop(named));
    PopConnectInherits(c, named, t.generation, true, created);
    Transitive(b, named, Connect(c, ResetRetryBudget(Pop(named)), t.generation, true, created));
  }

  lemma EndingInherits(b: Bot)
    requires |b.queue| > 0
    ensures Inherits(b, BeginEnd(b)) && Inherits(b, BeginEnd(ResetRetryBudget(b)))
  {
    hide BeginEnd, ResetRetryBudget;
    BeginEndInherits(b);
    ResetInherits(b);
    ResetQueue(b);
    BeginEndInherits(ResetRetryBudget(b));
    Transitive(b, ResetRetryBudget(b), BeginEnd(ResetRetryBudget(b)));
  }

  lemma ResetQueue(b: Bot)
    ensures ResetRetryBudget(b).queue == b.queue
  {
  }

  lemma DespawnInherits(b: Bot)
    requires |b.queue| > 0
    ensures Inherits(b, AdvanceDespawn(b))
  {
    SameObjectsInherit(b, b);
    BeginEndInherits(b);
    EnterInherits(b, NewState(Offline, Previous(b)), Enter(Pop(b), NewState(Offline, Previous(b))));
    SameObjectsInherit(b, Pop(b));
    hide BeginEnd;
  }

  lemma ForgetInherits(b: Bot, stored: bool)
    requires |b.queue| > 0
    ensures Inherits(b, AdvanceForget(b, stored))
  {
    SameObjectsInherit(b, b);
    CancelInherits(Pop(b).(generation := b.generation + 1));
  }

  lemma SpawningInherits(c: Config, b: Bot, created: bool)
    requires |b.queue| > 0
    ensures Inherits(b, AdvanceSpawn(c, b, created))
  {
    hide Connect, ResetRetryBudget, BeginEnd, Inherits;
    ShortInherits(b);
    EndingInherits(b);
    PopConnectInherits(c, b, b.queue[0].generation, false, created);
  }

  lemma ReconnectingInherits(c: Config, b: Bot, created: bool)
    requires |b.queue| > 0
    ensures Inherits(b, AdvanceReconnect(c, b, created)) && Inherits(b, AdvanceRetry(c, b, created))
  {
    hide Connect, ResetRetryBudget, BeginEnd, Inherits;
    ShortInherits(b);
    EndingInherits(b);
    PopConnectInherits(c, b, b.queue[0].generation, true, created);
  }

  lemma RenamingInherits(c: Config, b: Bot, created: bool, stored: bool)
    requires |b.queue| > 0 && b.queue[0].kind.RenameKind?
    ensures Inherits(b, AdvanceRename(c, b, created, stored))
  {
    hide StoreName, BeginEnd, Inherits;
    ShortInherits(b);
    EndingInherits(b);
    StoreNameInherits(c, b, created, stored);
  }

  /** Moving on in the queue changes no state object. */
  lemma ShortInherits(b: Bot)
    requires |b.queue| > 0
    ensures Inherits(b, b) && Inherits(b, Pop(b)) && forall stage: Stage :: Inherits(b, SetStage(b, stage))
  {
    SameObjectsInherit(b, b);
    SameObjectsInherit(b, Pop(b));
    forall stage: Stage ensures Inherits(b, SetStage(b, stage)) { SameObjectsInherit(b, SetStage(b, stage)); }
  }

  lemma AdvanceInherits(c: Config, b: Bot, created: bool, stored: bool)
    ensures Inherits(b, Advance(c, b, created, stored))
  {
    hide Inherits, AdvanceSpawn, AdvanceReconnect, AdvanceDespawn, AdvanceRename, AdvanceForget, AdvanceRetry;
    SameObjectsInherit(b, b);
    if |b.queue| > 0 {
      match b.queue[0].kind
      case DespawnKind => DespawnInherits(b);
      case ForgetKind => ForgetInherits(b, stored);
      case RenameKind(_, _) => RenamingInherits(c, b, created, stored);
      case SpawnKind => SpawningInherits(c, b, created);
      case _ => ReconnectingInherits(c, b, created);
    }
  }

  lemma LossInherits(c: Config, b: Bot, fewer: Bot, generation: nat, session: Option<nat>, notReady: bool)
    requires fewer.objects == b.objects && fewer.entry == b.entry && Inherits(b, fewer)
    ensures Inherits(b, Disconnected(c, fewer, generation, session, notReady))
  {
    hide Disconnected;
    DisconnectedInherits(c, fewer, generation, session, notReady);
    Transitive(b, fewer, Disconnected(c, fewer, generation, session, notReady));
  }

  lemma StepInherits(c: Config, b: Bot, e: Event)
    requires Inv(b)
    ensures Inherits(b, Step(c, b, e))
  {
    hide Inv, Inherits, Disconnected, Advance;
    SameObjectsInherit(b, b);
    match e
    case Proceed(created, stored) => AdvanceInherits(c, b, created, stored);
    case ConnectFailed(session, notReady) =>
      if session in b.flights && session < |b.attempts| {
        var fewer := b.(flights := b.flights - {session}, open := b.open - {session});
        SameObjectsInherit(b, fewer);
        LossInherits(c, b, fewer, b.attempts[session].generation, HeldBy(b, session), notReady);
      }
    case Closed(session, notReady) =>
      if session < |b.attempts| && session !in b.emitted {
        var fewer := b.(emitted := b.emitted + {session}, open := b.open - {session});
        SameObjectsInherit(b, fewer);
        LossInherits(c, b, fewer, b.attempts[session].generation, Some(session), notReady);
      }
    case _ => OtherInherits(c, b, e);
  }

  lemma OtherInherits(c: Config, b: Bot, e: Event)
    requires !e.Proceed? && !e.ConnectFailed? && !e.Closed?
    ensures Inherits(b, Step(c, b, e))
  {
    hide Disconnected, Advance;
  }

  /** Acting on a loss needs the session to be held, and lets go of it. */
  lemma LossLetsGo(c: Config, b: Bot, e: Event)
    requires Inv(b) && LossOf(b, e).Some?
    ensures Holds(b, LossOf(b, e).value) && !Holds(Step(c, b, e), LossOf(b, e).value)
    ensures LossOf(b, e).value < |b.attempts|
  {
    var session := LossOf(b, e).value;
    var held := if e.Closed? then Some(session) else HeldBy(b, session);
    HeldIsOwn(b, session);
    HandlesFacts(b, session, held);
    var fewer := if e.Closed? then b.(emitted := b.emitted + {session}, open := b.open - {session})
                 else b.(flights := b.flights - {session}, open := b.open - {session});
    DisconnectedLoses(c, fewer, held, e.notReady);
    hide Disconnected;
    var r := Step(c, b, e);
    assert Lost(fewer, r);
    forall o | 0 <= o < |r.objects| ensures r.objects[o].session != Some(session) {
      if o != b.entry.value { assert r.objects[o] == b.objects[o]; }
    }
  }

  lemma {:induction false} GoneIsNotLostAgain(c: Config, b: Bot, es: seq<Event>, session: nat)
    requires Inv(b) && session < |b.attempts| && !Holds(b, session)
    ensures session !in Losses(c, b, es)
    decreases |es|
  {
    hide Inv, Step, LossOf;
    if es != [] {
      StepKeeps(c, b, es[0]);
      StepInherits(c, b, es[0]);
      if LossOf(b, es[0]).Some? { LossLetsGo(c, b, es[0]); }
      GoneIsNotLostAgain(c, Step(c, b, es[0]), es[1..], session);
    }
  }

  lemma {:induction false} LossesDiffer(c: Config, b: Bot, es: seq<Event>)
    requires Inv(b)
    ensures forall i, j :: 0 <= i < j < |Losses(c, b, es)| ==> Losses(c, b, es)[i] != Losses(c, b, es)[j]
    decreases |es|
  {
    hide Inv, Step, LossOf;
    if es != [] {
      var next, rest := Step(c, b, es[0]), es[1..];
      StepKeeps(c, b, es[0]);
      StepInherits(c, b, es[0]);
      LossesDiffer(c, next, rest);
      if LossOf(b, es[0]).Some? {
        LossLetsGo(c, b, es[0]);
        GoneIsNotLostAgain(c, next, rest, LossOf(b, es[0]).value);
      }
    }
  }

  /** Over every run from boot, the loss of a session is acted on at most once, whichever reports of it arrive. */
  lemma LossCountedOnce(c: Config, profile: Profile, now: int, created: bool, es: seq<Event>)
    ensures var lost := Losses(c, Started(c, profile, now, created), es);
            forall i, j :: 0 <= i < j < |lost| ==> lost[i] != lost[j]
  {
    StartedOk(c, profile, now, created);
    LossesDiffer(c, Started(c, profile, now, created), es);
  }
}
