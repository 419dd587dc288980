/** What every step of the lifecycle keeps, over any interleaving. */
module LifecycleInv {
  import opened Common
  import opened Lifecycle

  // -- the invariant -----------------------------------------------------------------

  /** A transition that an intent queued, as opposed to a retry or a forget. */
  predicate Intent(t: Task) { !t.kind.ForgetKind? && !t.kind.RetryKind? }

  /** A transition that will open a session if its generation is still the latest. */
  predicate Connectful(t: Task)
  {
    t.kind.SpawnKind? || t.kind.ReconnectKind? || (t.kind.RenameKind? && t.kind.wasOnline)
  }

  predicate CurrentRetry(b: Bot, t: Task) { t.kind.RetryKind? && t.generation == b.generation }

  predicate TaskOk(b: Bot, i: nat)
    requires i < |b.queue|
  {
    var t := b.queue[i];
    && t.generation <= b.generation
    && (i > 0 || !Intent(t) ==> t.stage.Queued?)
    && (t.stage.Prepared? ==> t.kind.SpawnKind?)
    && (t.stage.Delaying? ==> Connectful(t))
    && (!t.stage.Queued? && t.kind.RenameKind? ==> t.kind.wasOnline)
    && (Intent(t) && !Connectful(t) && t.generation == b.generation ==> !Desired(b))
    && (t.stage == Prepared(false) && t.generation == b.generation ==> !MayConnect(b, b.generation))
  }

  ghost predicate Shape(b: Bot)
  {
    && (b.entry.Some? ==> b.entry.value < |b.objects|)
    && (forall k :: 0 <= k < |b.attempts| ==> b.attempts[k].slot < |b.objects|)
    && (forall k :: 0 <= k < |b.attempts| ==> b.attempts[k].generation <= b.generation)
    && (forall s :: s in b.open || s in b.flights || s in b.superseded ==> s < |b.attempts|)
    && (forall t :: t in b.timers ==> t < b.nextTimer)
    && (forall o :: 0 <= o < |b.objects| && b.objects[o].waitingSince.Some? ==> b.objects[o].waitingSince.value <= b.now)
    && (forall i :: 0 <= i < |b.queue| ==> TaskOk(b, i))
  }

  /** Only the object a session was made for holds it, and the open session is the one the map's object holds. */
  ghost predicate Sessions(b: Bot)
  {
    && (forall o :: 0 <= o < |b.objects| && b.objects[o].session.Some? ==>
          && b.objects[o].session.value < |b.attempts|
          && b.attempts[b.objects[o].session.value].slot == o)
    && (forall i, j :: 0 <= i < j < |b.attempts| ==> b.attempts[i].slot < b.attempts[j].slot)
    && (forall x, y :: x in b.open && y in b.open ==> x == y)
    && (!b.closing ==> forall s :: s in b.open ==> HasSession(b) && Current(b).session == Some(s))
  }

  ghost predicate HeadOk(b: Bot)
  {
    |b.queue| > 0 ==>
      match b.queue[0].stage
      case Queued => true
      case Ending(slot, session) =>
        && slot < |b.objects| && b.objects[slot].timer.None?
        && (b.objects[slot].session == Some(session) || b.objects[slot].session.None?)
        && (b.entry == Some(slot) || (b.closing && b.entry.None?))
      case _ => !HasSession(b)
  }

  /** A transition of an intent runs before any session of its generation; a stopped Bot has none of the latest. */
  ghost predicate Fresh(b: Bot)
  {
    && (forall i, k :: 0 <= i < |b.queue| && 0 <= k < |b.attempts| && Intent(b.queue[i]) ==>
          b.attempts[k].generation < b.queue[i].generation)
    && (forall i, j :: 0 <= i < j < |b.queue| && Intent(b.queue[i]) && Intent(b.queue[j]) ==>
          b.queue[i].generation < b.queue[j].generation)
    && (b.closing || b.profile.None? ==> forall k :: 0 <= k < |b.attempts| ==> b.attempts[k].generation < b.generation)
  }

  ghost predicate NoIntent(b: Bot) { forall i :: 0 <= i < |b.queue| ==> !Intent(b.queue[i]) }

  /** The map's object waits for its next try, having lost what it had. */
  predicate Waiting(b: Bot)
  {
    HasEntry(b) && Current(b).session.None? && Current(b).handled == Some(b.generation)
  }

  ghost predicate TimersOk(b: Bot)
  {
    && (forall t :: t in b.timers ==>
          && Waiting(b) && Current(b).timer == Some(t) && Current(b).phase == Reconnecting
          && b.timers[t].generation == b.generation && b.timers[t].slot == b.entry.value && NoIntent(b)
          && !b.closing && Desired(b))
    && (HasEntry(b) && Current(b).timer.Some? ==> Current(b).timer.value in b.timers)
  }

  ghost predicate RetriesOk(b: Bot)
  {
    forall i :: 0 <= i < |b.queue| && CurrentRetry(b, b.queue[i]) ==>
      && NoIntent(b) && b.timers == map[]
      && (Waiting(b) || b.closing || b.profile.None? || !HasEntry(b))
      && !HasSession(b)
      && forall j :: 0 <= j < |b.queue| && CurrentRetry(b, b.queue[j]) ==> j == i
  }

  predicate OfLatest(b: Bot, state: BotState)
  {
    state.session.Some? && state.session.value < |b.attempts|
    && b.attempts[state.session.value].generation == b.generation
  }

  /** A session of the latest generation is held, or its loss has been handled. */
  ghost predicate LossSeen(b: Bot)
  {
    forall k :: 0 <= k < |b.attempts| && b.attempts[k].generation == b.generation ==>
      HasEntry(b) && (Current(b).session.Some? || Current(b).handled == Some(b.generation))
  }

  ghost predicate Unhandled(b: Bot)
  {
    forall o :: 0 <= o < |b.objects| && OfLatest(b, b.objects[o]) ==> b.objects[o].handled != Some(b.generation)
  }

  /** After the queue has run its present transitions, the last one will have acted for the latest intent. */
  ghost predicate QueueChases(b: Bot)
  {
    Desired(b) && !b.closing ==>
      forall i :: 0 <= i < |b.queue| && Intent(b.queue[i]) ==>
        exists j :: i <= j < |b.queue| && Connectful(b.queue[j]) && b.queue[j].generation == b.generation
  }

  predicate Flying(b: Bot)
  {
    HasSession(b) && Current(b).session.value in b.flights && OfLatest(b, Current(b))
  }

  predicate Settled(b: Bot)
  {
    HasEntry(b) &&
    match Current(b).phase
    case Failed => true
    case Online => Current(b).session.Some?
    case Reconnecting => Current(b).timer.Some?
    case _ => false
  }

  ghost predicate InQueue(b: Bot)
  {
    exists i :: 0 <= i < |b.queue| && b.queue[i].generation == b.generation &&
                (Connectful(b.queue[i]) || b.queue[i].kind.RetryKind?)
  }

  /** Something is being done for a Bot that should be online, or it is online, waiting to retry, or failed. */
  ghost predicate Chased(b: Bot)
  {
    Desired(b) && !b.closing ==> InQueue(b) || Flying(b) || Settled(b)
  }

  /** A transition that will try to close the session the Bot now holds. */
  predicate WillClose(b: Bot, t: Task)
  {
    || t.stage.Ending?
    || (t.stage.Queued? && (t.kind.DespawnKind? || (t.kind.RenameKind? && t.kind.wasOnline)))
    || (t.stage.Queued? && (t.kind.SpawnKind? || t.kind.ReconnectKind?) && t.generation == b.generation && Desired(b))
  }

  /** A held session belongs to the latest intent, or a transition will try to close it, or a close has failed. */
  ghost predicate Leaving(b: Bot)
  {
    !b.closing && HasSession(b) ==>
      || (Desired(b) && OfLatest(b, Current(b)))
      || Current(b).phase == Failed
      || exists i :: 0 <= i < |b.queue| && WillClose(b, b.queue[i])
  }

  /** The invariant but for what is being done about the Bot right now. */
  ghost predicate Core(b: Bot)
  {
    && Shape(b) && Sessions(b) && HeadOk(b) && Fresh(b) && TimersOk(b) && RetriesOk(b) && Unhandled(b)
    && QueueChases(b) && Leaving(b)
  }

  ghost predicate Inv(b: Bot)
  {
    Core(b) && LossSeen(b) && Chased(b)
  }

  // -- an intent: a new generation, no timer, one more transition ------------------------

  /** Cancelling the map's timer changes no object but its timer, and leaves no timer armed. */
  lemma CancelFacts(b: Bot)
    ensures var r := CancelTimer(b);
            && r == b.(objects := r.objects, timers := r.timers) && |r.objects| == |b.objects|
            && (forall o :: 0 <= o < |b.objects| ==> r.objects[o] == b.objects[o].(timer := r.objects[o].timer))
            && (forall o :: 0 <= o < |b.objects| && b.objects[o].timer.None? ==> r.objects[o].timer.None?)
            && (HasEntry(b) ==> Current(r).timer.None?)
            && (forall t :: t in r.timers ==> t in b.timers)
            && (TimersOk(b) ==> r.timers == map[])
  {
  }

  /** What an intent asks of the profile it writes. */
  predicate Consistent(b0: Bot, b: Bot, kind: Kind)
  {
    && b0.profile.Some? && b.profile.Some? && b == b0.(profile := b.profile)
    && (kind.SpawnKind? || kind.ReconnectKind? || kind.DespawnKind? || kind.RenameKind?)
    && (Desired(b) <==> Connectful(Task(kind, 0, Queued)))
    && (kind.RenameKind? && !kind.wasOnline ==> !Desired(b0))
  }

  lemma SubmitKeeps(b0: Bot, b: Bot, kind: Kind)
    requires Inv(b0) && Consistent(b0, b, kind)
    ensures Inv(Submit(b, kind))
  {
    var r := Submit(b, kind);
    SubmitAfter(b0, b, kind);
    hide Submit;
    AfterShape(b0, r);
    AfterFresh(b0, r);
    AfterSessions(b0, r);
    AfterChases(b0, r);
  }

  lemma SubmitAfter(b0: Bot, b: Bot, kind: Kind)
    requires TimersOk(b0) && b == b0.(profile := b.profile)
    ensures After(b0, b.profile, kind, Submit(b, kind))
  {
    var up := b.(generation := b.generation + 1);
    CancelFacts(up);
    CancelFacts(b0);
    assert CancelTimer(up).timers == CancelTimer(b0).timers;
  }

  /** The state after an intent, as a relation. */
  ghost predicate After(b: Bot, profile: Option<Profile>, kind: Kind, r: Bot)
  {
    && r == b.(profile := profile, objects := r.objects, timers := map[], generation := b.generation + 1,
               queue := b.queue + [Task(kind, b.generation + 1, Queued)])
    && |r.objects| == |b.objects|
    && (forall o :: 0 <= o < |b.objects| ==> r.objects[o] == b.objects[o].(timer := r.objects[o].timer))
    && (forall o :: 0 <= o < |b.objects| && b.objects[o].timer.None? ==> r.objects[o].timer.None?)
    && (HasEntry(b) ==> Current(r).timer.None?)
  }

  ghost predicate Asked(b: Bot, r: Bot)
  {
    && |r.queue| == |b.queue| + 1 && After(b, r.profile, r.queue[|b.queue|].kind, r)
    && b.profile.Some? && r.profile.Some? && Intent(r.queue[|b.queue|])
    && (Desired(r) <==> Connectful(r.queue[|b.queue|]))
    && (r.queue[|b.queue|].kind.RenameKind? && !r.queue[|b.queue|].kind.wasOnline ==> !Desired(b))
  }

  lemma AfterShape(b: Bot, r: Bot)
    requires Shape(b) && Asked(b, r)
    ensures Shape(r)
  {
    forall i | 0 <= i < |r.queue| ensures TaskOk(r, i) {
      if i < |b.queue| { assert TaskOk(b, i) && r.queue[i] == b.queue[i]; }
    }
  }

  lemma AfterFresh(b: Bot, r: Bot)
    requires Shape(b) && Fresh(b) && Asked(b, r)
    ensures Fresh(r) && RetriesOk(r)
  {
    assert forall i :: 0 <= i < |b.queue| ==> r.queue[i] == b.queue[i] && TaskOk(b, i);
  }

  lemma AfterSessions(b: Bot, r: Bot)
    requires Shape(b) && Sessions(b) && HeadOk(b) && Asked(b, r)
    ensures Sessions(r) && HeadOk(r) && LossSeen(r) && Unhandled(r)
  {
    if |b.queue| > 0 { assert r.queue[0] == b.queue[0]; }
  }

  lemma AfterChases(b: Bot, r: Bot)
    requires Inv(b) && Asked(b, r)
    ensures QueueChases(r) && Chased(r) && Leaving(r) && TimersOk(r)
  {
    var last := |b.queue|;
    assert r.queue[last].generation == r.generation;
    if !r.closing && HasSession(r) {
      assert HasSession(b) && Current(r).session == Current(b).session && Current(r).phase == Current(b).phase;
      if Connectful(r.queue[last]) || r.queue[last].kind.DespawnKind? {
        assert WillClose(r, r.queue[last]);
      } else if Current(b).phase != Failed {
        var i :| 0 <= i < |b.queue| && WillClose(b, b.queue[i]);
        assert r.queue[i] == b.queue[i] && WillClose(r, r.queue[i]);
      }
    }
  }

  // -- losing a session ---------------------------------------------------------------

  ghost predicate NoCurrentRetry(b: Bot) { forall i :: 0 <= i < |b.queue| ==> !CurrentRetry(b, b.queue[i]) }

  /** Nothing is waiting for the latest intent but the object in the map. */
  ghost predicate Alone(b: Bot)
  {
    HasEntry(b) && NoIntent(b) && NoCurrentRetry(b) && b.timers == map[] && !b.closing && b.open == {}
  }

  /** The state after a loss was handled, as a relation. */
  ghost predicate Lost(b: Bot, r: Bot)
  {
    && HasEntry(b)
    && r == b.(objects := r.objects, timers := r.timers, nextTimer := r.nextTimer)
    && |r.objects| == |b.objects|
    && (forall o :: 0 <= o < |b.objects| && o != b.entry.value ==> r.objects[o] == b.objects[o])
    && Current(r).session.None? && Current(r).handled == Some(b.generation)
    && (Current(r).waitingSince.Some? ==> Current(r).waitingSince.value <= b.now)
    && if Current(r).phase == Reconnecting
       then r.nextTimer == b.nextTimer + 1 && Current(r).timer == Some(b.nextTimer) && Desired(b)
            && (exists due :: r.timers == b.timers[b.nextTimer := Timer(b.entry.value, b.generation, due)])
       else r.timers == b.timers && r.nextTimer == b.nextTimer && Current(r).timer == Current(b).timer
            && (if Desired(b) then Current(r).phase == Failed else Current(r).phase == Offline)
  }

  lemma DisconnectedLoses(c: Config, b: Bot, session: Option<nat>, notReady: bool)
    requires HasEntry(b) && Handles(b, b.generation, session)
    requires Current(b).waitingSince.Some? ==> Current(b).waitingSince.value <= b.now
    ensures Lost(b, Disconnected(c, b, b.generation, session, notReady))
  {
  }

  lemma LostKeeps(b: Bot, r: Bot)
    requires Core(b) && Alone(b) && Lost(b, r)
    ensures Inv(r)
  {
    LostShape(b, r);
    LostRest(b, r);
    hide Shape, Sessions, HeadOk, Fresh, TimersOk;
  }

  lemma LostRest(b: Bot, r: Bot)
    requires Core(b) && Alone(b) && Lost(b, r)
    ensures HeadOk(r) && Fresh(r) && TimersOk(r)
  {
    hide RetriesOk, QueueChases, Leaving;
    assert r.queue == b.queue && r.attempts == b.attempts;
    if |r.queue| > 0 { assert TaskOk(b, 0) && !Intent(b.queue[0]); }
  }

  lemma LostShape(b: Bot, r: Bot)
    requires Shape(b) && Sessions(b) && Alone(b) && Lost(b, r)
    ensures Shape(r) && Sessions(r)
  {
    assert forall i :: 0 <= i < |r.queue| ==> r.queue[i] == b.queue[i] && TaskOk(b, i);
    assert forall i :: 0 <= i < |r.queue| ==> TaskOk(r, i);
  }

  lemma DisconnectedKeeps(c: Config, b: Bot, generation: nat, session: Option<nat>, notReady: bool)
    requires Core(b)
    requires if Handles(b, generation, session) then Alone(b) else LossSeen(b) && Chased(b)
    ensures Inv(Disconnected(c, b, generation, session, notReady))
  {
    if Handles(b, generation, session) {
      DisconnectedLoses(c, b, session, notReady);
      hide Disconnected;
      LostKeeps(b, Disconnected(c, b, generation, session, notReady));
    }
  }

  // -- opening a session -----------------------------------------------------------------

  ghost predicate Opened(b: Bot, r: Bot)
  {
    var n := |b.attempts|;
    && r == b.(objects := r.objects, entry := r.entry, attempts := b.attempts + [Attempt(b.generation, |b.objects|)],
               flights := b.flights + {n}, open := b.open + {n})
    && r.entry == Some(|b.objects|)
    && |r.objects| == |b.objects| + 1 && (forall o :: 0 <= o < |b.objects| ==> r.objects[o] == b.objects[o])
    && Current(r).session == Some(n) && Current(r).timer.None? && Current(r).handled.None?
    && (Current(r).waitingSince.Some? ==> Current(r).waitingSince.value <= b.now)
  }

  lemma OpenedShape(b: Bot, r: Bot)
    requires Shape(b) && Sessions(b) && !b.closing && !HasSession(b) && Opened(b, r)
    ensures Shape(r) && Sessions(r)
  {
    assert b.open == {};
    forall i | 0 <= i < |r.queue| ensures TaskOk(r, i) { assert r.queue[i] == b.queue[i] && TaskOk(b, i); }
  }

  lemma OpenedKeeps(b: Bot, r: Bot)
    requires Core(b) && MayConnect(b, b.generation) && !HasSession(b) && NoIntent(b) && NoCurrentRetry(b)
    requires b.timers == map[] && Opened(b, r)
    ensures Inv(r)
  {
    OpenedShape(b, r);
    assert b.open == {};
    assert forall i :: 0 <= i < |r.queue| ==> r.queue[i] == b.queue[i] && TaskOk(b, i);
    hide Sessions;
    assert OfLatest(r, Current(r)) && Flying(r);
    assert TimersOk(r);
    assert Unhandled(r);
  }

  ghost predicate Entered(b: Bot, r: Bot)
  {
    && r == b.(objects := r.objects, entry := Some(|b.objects|))
    && |r.objects| == |b.objects| + 1 && (forall o :: 0 <= o < |b.objects| ==> r.objects[o] == b.objects[o])
    && Current(r).session.None? && Current(r).timer.None?
    && (Current(r).waitingSince.Some? ==> Current(r).waitingSince.value <= b.now)
  }

  lemma EnteredKeeps(b: Bot, r: Bot)
    requires Core(b) && b.timers == map[] && !HasSession(b) && Entered(b, r) && NoIntent(b) && NoCurrentRetry(b)
    ensures Core(r) && (!b.closing ==> r.open == {})
  {
    assert forall i :: 0 <= i < |r.queue| ==> r.queue[i] == b.queue[i] && TaskOk(b, i);
    assert forall i :: 0 <= i < |r.queue| ==> TaskOk(r, i);
    assert Shape(r);
    assert Sessions(r);
  }

  lemma ConnectKeeps(c: Config, b: Bot, reconnecting: bool, created: bool)
    requires Core(b) && MayConnect(b, b.generation) && !HasSession(b) && NoIntent(b) && NoCurrentRetry(b)
    requires b.timers == map[]
    ensures Inv(Connect(c, b, b.generation, reconnecting, created))
  {
    var state := NewState(if reconnecting then Reconnecting else Connecting, Previous(b)).(timer := None, handled := None);
    var e := Enter(b, state);
    if created {
      OpenedKeeps(b, Connect(c, b, b.generation, reconnecting, created));
    } else {
      EnteredKeeps(b, e);
      hide Disconnected;
      DisconnectedKeeps(c, e, b.generation, None, false);
    }
  }

  // -- running the queue --------------------------------------------------------------------

  lemma HeadFacts(b: Bot)
    requires Core(b) && |b.queue| > 0 && Intent(b.queue[0])
    ensures b.timers == map[] && NoCurrentRetry(b) && CancelTimer(b) == b
    ensures b.queue[0].generation == b.generation ==> NoIntent(Pop(b)) && NoCurrentRetry(Pop(b))
  {
    assert !NoIntent(b);
    if b.queue[0].generation == b.generation {
      forall i | 1 <= i < |b.queue| ensures !Intent(b.queue[i]) {
        assert TaskOk(b, i);
      }
    }
  }

  lemma PopCore(b: Bot)
    requires Core(b) && |b.queue| > 0
    requires b.closing || !HasSession(b) || Current(b).phase == Failed || !WillClose(b, b.queue[0])
    ensures Core(Pop(b)) && (LossSeen(b) ==> LossSeen(Pop(b)))
  {
    var r := Pop(b);
    assert forall i :: 0 <= i < |r.queue| ==> r.queue[i] == b.queue[i + 1] && TaskOk(b, i + 1);
    forall i | 0 <= i < |r.queue| ensures TaskOk(r, i) { assert TaskOk(b, i + 1) && r.queue[i] == b.queue[i + 1]; }
    PopRetries(b);
    PopLeaving(b);
    hide RetriesOk, QueueChases, Leaving, Chased, CurrentRetry;
    assert Shape(r) && Sessions(r) && HeadOk(r) && Fresh(r) && TimersOk(r);
  }

  lemma PopLeaving(b: Bot)
    requires |b.queue| > 0 && QueueChases(b) && Leaving(b)
    requires b.closing || !HasSession(b) || Current(b).phase == Failed || !WillClose(b, b.queue[0])
    ensures QueueChases(Pop(b)) && Leaving(Pop(b))
  {
    var r := Pop(b);
    if Desired(r) && !r.closing {
      forall i | 0 <= i < |r.queue| && Intent(r.queue[i])
        ensures exists j :: i <= j < |r.queue| && Connectful(r.queue[j]) && r.queue[j].generation == r.generation
      {
        var j :| i + 1 <= j < |b.queue| && Connectful(b.queue[j]) && b.queue[j].generation == b.generation;
        assert r.queue[j - 1] == b.queue[j];
      }
    }
    if !b.closing && HasSession(b) && !(Desired(b) && OfLatest(b, Current(b))) && Current(b).phase != Failed {
      var i :| 0 <= i < |b.queue| && WillClose(b, b.queue[i]);
      assert r.queue[i - 1] == b.queue[i];
    }
  }

  lemma PopRetries(b: Bot)
    requires RetriesOk(b) && |b.queue| > 0
    ensures RetriesOk(Pop(b))
  {
    var r := Pop(b);
    forall i | 0 <= i < |r.queue| && CurrentRetry(r, r.queue[i])
      ensures NoIntent(r) && r.timers == map[] && !HasSession(r)
      ensures Waiting(r) || r.closing || r.profile.None? || !HasEntry(r)
      ensures forall j :: 0 <= j < |r.queue| && CurrentRetry(r, r.queue[j]) ==> j == i
    {
      assert r.queue[i] == b.queue[i + 1];
      assert CurrentRetry(b, b.queue[i + 1]);
      forall j | 0 <= j < |r.queue| && CurrentRetry(r, r.queue[j]) ensures j == i {
        assert CurrentRetry(b, b.queue[j + 1]);
      }
    }
  }

  /** Whether the running transition is the one that is to bring the Bot online. */
  predicate Depends(b: Bot)
    requires |b.queue| > 0
  {
    Desired(b) && !b.closing && b.queue[0].generation == b.generation
    && (Connectful(b.queue[0]) || b.queue[0].kind.RetryKind?)
  }

  /** Dropping a transition that is not the one the Bot depends on. */
  lemma PopKeeps(b: Bot)
    requires Inv(b) && |b.queue| > 0
    requires b.closing || !HasSession(b) || Current(b).phase == Failed || !WillClose(b, b.queue[0])
    requires !Depends(b) || Flying(b) || Settled(b)
    ensures Inv(Pop(b))
  {
    PopCore(b);
    PopChased(b);
  }

  lemma PopChased(b: Bot)
    requires Chased(b) && |b.queue| > 0
    requires !Depends(b) || Flying(b) || Settled(b)
    ensures Chased(Pop(b))
  {
    var r := Pop(b);
    if Desired(b) && !b.closing && !Flying(b) && !Settled(b) {
      var i :| 0 <= i < |b.queue| && b.queue[i].generation == b.generation
               && (Connectful(b.queue[i]) || b.queue[i].kind.RetryKind?);
      assert r.queue[i - 1] == b.queue[i];
    }
  }

  ghost predicate Restaged(b: Bot, r: Bot)
  {
    && |b.queue| > 0 && |r.queue| == |b.queue| && r == b.(queue := r.queue)
    && r.queue[0] == b.queue[0].(stage := r.queue[0].stage)
    && (forall i :: 1 <= i < |b.queue| ==> r.queue[i] == b.queue[i])
  }

  /** Moving the running transition to its next stage; a transition that was to close a session still is. */
  lemma StageKeeps(b: Bot, stage: Stage)
    requires Inv(b) && |b.queue| > 0 && Intent(b.queue[0])
    requires TaskOk(SetStage(b, stage), 0) && HeadOk(SetStage(b, stage))
    requires b.closing || !HasSession(b) || !WillClose(b, b.queue[0]) || stage.Ending?
    ensures Inv(SetStage(b, stage))
  {
    var r := SetStage(b, stage);
    assert Restaged(b, r);
    hide SetStage;
    StageShape(b, r);
    StageFresh(b, r);
    hide Shape, Sessions, HeadOk, Fresh, TimersOk, RetriesOk, QueueChases, Leaving, Chased;
    StageRetries(b, r);
    StageChases(b, r);
  }

  lemma StageShape(b: Bot, r: Bot)
    requires Shape(b) && Sessions(b) && Restaged(b, r) && TaskOk(r, 0)
    ensures Shape(r) && Sessions(r)
  {
    assert forall i :: 1 <= i < |b.queue| ==> TaskOk(b, i) && r.queue[i] == b.queue[i];
    assert forall i :: 0 <= i < |r.queue| ==> TaskOk(r, i);
  }

  lemma StageFresh(b: Bot, r: Bot)
    requires Fresh(b) && TimersOk(b) && Restaged(b, r)
    ensures Fresh(r) && TimersOk(r)
  {
    assert forall i :: 0 <= i < |r.queue| ==> r.queue[i].kind == b.queue[i].kind && r.queue[i].generation == b.queue[i].generation;
  }

  lemma StageRetries(b: Bot, r: Bot)
    requires RetriesOk(b) && Restaged(b, r) && Intent(b.queue[0])
    ensures RetriesOk(r)
  {
    forall i | 0 <= i < |r.queue| ensures !CurrentRetry(r, r.queue[i]) {
      if CurrentRetry(r, r.queue[i]) { assert CurrentRetry(b, b.queue[i]); }
    }
  }

  lemma StageChases(b: Bot, r: Bot)
    requires QueueChases(b) && Chased(b) && Leaving(b) && Restaged(b, r) && Intent(b.queue[0])
    requires b.closing || !HasSession(b) || !WillClose(b, b.queue[0]) || r.queue[0].stage.Ending?
    ensures QueueChases(r) && Chased(r) && Leaving(r)
  {
    assert forall i :: 0 <= i < |r.queue| ==> r.queue[i].kind == b.queue[i].kind && r.queue[i].generation == b.queue[i].generation;
    SameKindsChase(b, r);
    if InQueue(b) {
      var i :| 0 <= i < |b.queue| && b.queue[i].generation == b.generation
               && (Connectful(b.queue[i]) || b.queue[i].kind.RetryKind?);
      assert r.queue[i].kind == b.queue[i].kind;
    }
    if !b.closing && HasSession(b) && !(Desired(b) && OfLatest(b, Current(b))) && Current(b).phase != Failed {
      var i :| 0 <= i < |b.queue| && WillClose(b, b.queue[i]);
      assert WillClose(r, r.queue[i]);
    }
  }

  /** What the queue chases depends on the kinds and generations in it alone. */
  lemma SameKindsChase(b: Bot, r: Bot)
    requires QueueChases(b) && |r.queue| == |b.queue|
    requires r.generation == b.generation && r.profile == b.profile && r.closing == b.closing
    requires forall i :: 0 <= i < |r.queue| ==>
               r.queue[i].kind == b.queue[i].kind && r.queue[i].generation == b.queue[i].generation
    ensures QueueChases(r)
  {
    if Desired(r) && !r.closing {
      forall i | 0 <= i < |r.queue| && Intent(r.queue[i])
        ensures exists j :: i <= j < |r.queue| && Connectful(r.queue[j]) && r.queue[j].generation == r.generation
      {
        var j :| i <= j < |b.queue| && Connectful(b.queue[j]) && b.queue[j].generation == b.generation;
        assert r.queue[j].kind == b.queue[j].kind;
      }
    }
  }

  lemma BeginEndKeeps(b: Bot)
    requires Inv(b) && |b.queue| > 0 && Intent(b.queue[0]) && b.queue[0].stage.Queued?
    requires b.queue[0].kind.RenameKind? ==> b.queue[0].kind.wasOnline
    ensures Inv(BeginEnd(b))
  {
    HeadFacts(b);
    assert TaskOk(b, 0);
    if HasSession(b) {
      var stage := Ending(b.entry.value, Current(b).session.value);
      assert HeadOk(SetStage(b, stage));
      StageKeeps(b, stage);
    } else {
      StageKeeps(b, Ended);
    }
  }

  lemma ResetKeeps(b: Bot)
    requires Core(b)
    ensures Core(ResetRetryBudget(b)) && HasSession(ResetRetryBudget(b)) == HasSession(b)
    ensures Inv(b) ==> Inv(ResetRetryBudget(b))
    ensures ResetRetryBudget(b) == b.(objects := ResetRetryBudget(b).objects)
  {
    var r := ResetRetryBudget(b);
    if HasEntry(b) {
      ResetShape(b, r);
      assert RetriesOk(r);
      assert TimersOk(r);
      assert Unhandled(r);
      hide Shape, Sessions, HeadOk, Fresh, TimersOk, RetriesOk, Unhandled;
    }
  }

  lemma ResetShape(b: Bot, r: Bot)
    requires Shape(b) && Sessions(b) && HeadOk(b) && Fresh(b) && r == ResetRetryBudget(b)
    ensures Shape(r) && Sessions(r) && HeadOk(r) && Fresh(r)
  {
    forall i | 0 <= i < |r.queue| ensures TaskOk(r, i) { assert TaskOk(b, i); }
  }

  /** The last step of a transition: it leaves the queue and opens a session under the latest generation. */
  lemma PopConnectKeeps(c: Config, b: Bot, reconnecting: bool, created: bool)
    requires Core(b) && |b.queue| > 0 && Intent(b.queue[0]) && !HasSession(b)
    requires MayConnect(b, b.queue[0].generation)
    ensures Inv(Connect(c, ResetRetryBudget(Pop(b)), b.queue[0].generation, reconnecting, created))
    ensures Inv(Connect(c, Pop(b), b.queue[0].generation, reconnecting, created))
  {
    HeadFacts(b);
    PopCore(b);
    ResetKeeps(Pop(b));
    hide Connect, ResetRetryBudget;
    ConnectKeeps(c, ResetRetryBudget(Pop(b)), reconnecting, created);
    ConnectKeeps(c, Pop(b), reconnecting, created);
  }

  // -- each transition ------------------------------------------------------------------------

  lemma SpawnKeeps(c: Config, b: Bot, created: bool)
    requires Inv(b) && |b.queue| > 0 && b.queue[0].kind.SpawnKind?
    ensures Inv(AdvanceSpawn(c, b, created))
  {
    hide Connect, ResetRetryBudget, BeginEnd;
    var g := b.queue[0].generation;
    assert TaskOk(b, 0);
    match b.queue[0].stage
    case Queued =>
      if !MayConnect(b, g) { PopKeeps(b); }
      else if !HasSession(b) { StageKeeps(b, Prepared(true)); }
      else { BeginEndKeeps(b); }
    case Ended => StageKeeps(b, if MayConnect(b, g) then Delaying else Prepared(false));
    case Delaying => StageKeeps(b, Prepared(MayConnect(b, g)));
    case Prepared(ready) =>
      if !ready { PopKeeps(b); }
      else if MayConnect(b, g) { PopConnectKeeps(c, b, false, created); }
      else {
        PopKeeps(b);
        ResetKeeps(Pop(b));
        ConnectNothing(c, ResetRetryBudget(Pop(b)), g, false, created);
      }
    case Ending(_, _) =>
  }

  lemma ConnectNothing(c: Config, b: Bot, generation: nat, reconnecting: bool, created: bool)
    requires !MayConnect(b, generation)
    ensures Connect(c, b, generation, reconnecting, created) == b
  {
  }

  lemma ReconnectKeeps(c: Config, b: Bot, created: bool)
    requires Inv(b) && |b.queue| > 0 && b.queue[0].kind.ReconnectKind?
    ensures Inv(AdvanceReconnect(c, b, created))
  {
    hide Connect, ResetRetryBudget, BeginEnd;
    var g := b.queue[0].generation;
    assert TaskOk(b, 0);
    match b.queue[0].stage
    case Queued =>
      if !MayConnect(b, g) {
        PopKeeps(b);
      } else {
        ResetKeeps(b);
        BeginEndKeeps(ResetRetryBudget(b));
      }
    case Ended => if !MayConnect(b, g) { PopKeeps(b); } else { StageKeeps(b, Delaying); }
    case Delaying =>
      if MayConnect(b, g) {
        PopConnectKeeps(c, b, true, created);
      } else {
        PopKeeps(b);
        ConnectNothing(c, Pop(b), g, true, created);
      }
    case _ =>
  }

  lemma DespawnKeeps(b: Bot)
    requires Inv(b) && |b.queue| > 0 && b.queue[0].kind.DespawnKind?
    ensures Inv(AdvanceDespawn(b))
  {
    hide BeginEnd;
    assert TaskOk(b, 0);
    match b.queue[0].stage
    case Queued => BeginEndKeeps(b);
    case Ended =>
      PopKeeps(b);
      HeadFacts(b);
      if b.generation == b.queue[0].generation && b.profile.Some? && !Desired(b) {
        EnteredOffline(Pop(b), AdvanceDespawn(b), b.queue[0].generation);
      }
    case _ =>
  }

  /** A despawn that is still the latest intent leaves a fresh offline object. */
  lemma EnteredOffline(b: Bot, r: Bot, generation: nat)
    requires Inv(b) && !HasSession(b) && b.timers == map[] && NoIntent(b) && NoCurrentRetry(b) && !Desired(b)
    requires r == Enter(b, NewState(Offline, Previous(b)))
    ensures Inv(r)
  {
    EnteredKeeps(b, r);
  }

  lemma RenameKeeps(c: Config, b: Bot, created: bool, stored: bool)
    requires Inv(b) && |b.queue| > 0 && b.queue[0].kind.RenameKind?
    ensures Inv(AdvanceRename(c, b, created, stored))
  {
    hide BeginEnd, StoreName;
    var t := b.queue[0];
    assert TaskOk(b, 0);
    match t.stage
    case Queued => if t.kind.wasOnline { BeginEndKeeps(b); } else { StoreNameKeeps(c, b, created, stored); }
    case Ended => if !MayConnect(b, t.generation) { PopKeeps(b); } else { StageKeeps(b, Delaying); }
    case Delaying =>
      if !MayConnect(b, t.generation) { PopKeeps(b); } else { StoreNameKeeps(c, b, created, stored); }
    case _ =>
  }

  lemma Renamed(b: Bot, profile: Option<Profile>)
    requires profile.Some? == b.profile.Some?
    requires profile.Some? ==> profile.value.desiredOnline == b.profile.value.desiredOnline
    ensures Core(b) ==> Core(b.(profile := profile))
    ensures Inv(b) ==> Inv(b.(profile := profile))
  {
    var r := b.(profile := profile);
    if Core(b) {
      RenamedShape(b, r);
      RenamedLeaving(b, r);
      assert TimersOk(r) && RetriesOk(r) && Unhandled(r) && QueueChases(r);
      hide Shape, Sessions, HeadOk, Fresh, TimersOk, RetriesOk, Unhandled, QueueChases, Leaving;
    }
  }

  lemma RenamedShape(b: Bot, r: Bot)
    requires Shape(b) && Sessions(b) && HeadOk(b) && Fresh(b) && r == b.(profile := r.profile) && Desired(r) == Desired(b)
    requires r.profile.Some? == b.profile.Some?
    ensures Shape(r) && Sessions(r) && HeadOk(r) && Fresh(r)
  {
    forall i | 0 <= i < |r.queue| ensures TaskOk(r, i) { assert TaskOk(b, i); }
  }

  lemma RenamedLeaving(b: Bot, r: Bot)
    requires Leaving(b) && r == b.(profile := r.profile) && Desired(r) == Desired(b)
    ensures Leaving(r)
  {
    if !b.closing && HasSession(b) && !(Desired(b) && OfLatest(b, Current(b))) && Current(b).phase != Failed {
      var i :| 0 <= i < |b.queue| && WillClose(b, b.queue[i]);
      assert WillClose(r, r.queue[i]);
    }
  }

  lemma StoreNameKeeps(c: Config, b: Bot, created: bool, stored: bool)
    requires Inv(b) && |b.queue| > 0 && b.queue[0].kind.RenameKind?
    requires if b.queue[0].stage.Delaying? then b.queue[0].kind.wasOnline && MayConnect(b, b.queue[0].generation)
             else b.queue[0].stage.Queued? && !b.queue[0].kind.wasOnline
    ensures Inv(StoreName(c, b, created, stored))
  {
    hide Connect, ResetRetryBudget;
    var t := b.queue[0];
    var profile := if stored && b.profile.Some? then Some(b.profile.value.(name := t.kind.newName)) else b.profile;
    var named := b.(profile := profile);
    Renamed(b, profile);
    assert TaskOk(named, 0);
    if t.kind.wasOnline {
      PopConnectKeeps(c, named, true, created);
    } else {
      PopKeeps(named);
    }
  }

  lemma ForgetKeeps(b: Bot, stored: bool)
    requires Inv(b) && |b.queue| > 0 && b.queue[0].kind.ForgetKind?
    ensures Inv(AdvanceForget(b, stored))
  {
    assert TaskOk(b, 0);
    PopKeeps(b);
    if |b.queue| > 1 { assert TaskOk(b, 1); }
    if MayForget(b) { Forgotten(Pop(b), AdvanceForget(b, stored)); }
  }

  lemma Forgotten(b: Bot, r: Bot)
    requires Inv(b) && MayForget(b) && b.timers == map[] && CancelTimer(b) == b
    requires r == b.(generation := b.generation + 1, entry := None, profile := r.profile)
    requires r.profile.None? || r.profile == b.profile
    requires |b.queue| > 0 ==> b.queue[0].stage.Queued?
    ensures Inv(r)
  {
    forall i | 0 <= i < |r.queue| ensures TaskOk(r, i) { assert TaskOk(b, i); }
    if !b.closing { assert forall s :: s in b.open ==> HasSession(b); }
    forall i | 0 <= i < |r.queue| ensures !CurrentRetry(r, r.queue[i]) { assert TaskOk(b, i); }
    assert Shape(r) && Sessions(r) && Fresh(r);
    assert HeadOk(r);
  }

  lemma RetryKeeps(c: Config, b: Bot, created: bool)
    requires Inv(b) && |b.queue| > 0 && b.queue[0].kind.RetryKind?
    ensures Inv(AdvanceRetry(c, b, created))
  {
    hide Connect;
    assert TaskOk(b, 0);
    var g := b.queue[0].generation;
    if MayConnect(b, g) {
      assert CurrentRetry(b, b.queue[0]);
      PopCore(b);
      forall i | 0 <= i < |Pop(b).queue| ensures !CurrentRetry(Pop(b), Pop(b).queue[i]) && !Intent(Pop(b).queue[i]) {
        assert Pop(b).queue[i] == b.queue[i + 1];
      }
      ConnectKeeps(c, Pop(b), true, created);
    } else {
      PopKeeps(b);
      ConnectNothing(c, Pop(b), g, true, created);
    }
  }

  lemma AdvanceKeeps(c: Config, b: Bot, created: bool, stored: bool)
    requires Inv(b)
    ensures Inv(Advance(c, b, created, stored))
  {
    hide Inv, AdvanceSpawn, AdvanceReconnect, AdvanceDespawn, AdvanceRename, AdvanceForget, AdvanceRetry;
    if |b.queue| > 0 {
      match b.queue[0].kind
      case SpawnKind => SpawnKeeps(c, b, created);
      case ReconnectKind => ReconnectKeeps(c, b, created);
      case DespawnKind => DespawnKeeps(b);
      case RenameKind(_, _) => RenameKeeps(c, b, created, stored);
      case ForgetKind => ForgetKeeps(b, stored);
      case RetryKind => RetryKeeps(c, b, created);
    }
  }

  // -- the other events --------------------------------------------------------------------------

  ghost predicate Appended(b: Bot, r: Bot)
  {
    |r.queue| == |b.queue| + 1 && forall i :: 0 <= i < |b.queue| ==> r.queue[i] == b.queue[i]
  }

  lemma AppendedChases(b: Bot, r: Bot)
    requires Appended(b, r) && r == b.(queue := r.queue) && !Intent(r.queue[|b.queue|]) && QueueChases(b)
    ensures QueueChases(r)
  {
    if Desired(b) && !b.closing {
      forall i | 0 <= i < |r.queue| && Intent(r.queue[i])
        ensures exists j :: i <= j < |r.queue| && Connectful(r.queue[j]) && r.queue[j].generation == r.generation
      {
        var j :| i <= j < |b.queue| && Connectful(b.queue[j]) && b.queue[j].generation == b.generation;
        assert r.queue[j] == b.queue[j];
      }
    }
  }

  lemma AppendedLeaving(b: Bot, r: Bot)
    requires Appended(b, r) && r == b.(queue := r.queue) && Leaving(b) && Chased(b)
    ensures Leaving(r) && Chased(r)
  {
    if !b.closing && HasSession(b) && !(Desired(b) && OfLatest(b, Current(b))) && Current(b).phase != Failed {
      var i :| 0 <= i < |b.queue| && WillClose(b, b.queue[i]);
      assert WillClose(r, r.queue[i]);
    }
    if InQueue(b) {
      var i :| 0 <= i < |b.queue| && b.queue[i].generation == b.generation
               && (Connectful(b.queue[i]) || b.queue[i].kind.RetryKind?);
      assert r.queue[i] == b.queue[i];
    }
  }

  lemma AppendedNoIntent(b: Bot, r: Bot)
    requires Appended(b, r) && !Intent(r.queue[|b.queue|])
    ensures NoIntent(r) <==> NoIntent(b)
  {
    if NoIntent(r) {
      forall i | 0 <= i < |b.queue| ensures !Intent(b.queue[i]) { assert r.queue[i] == b.queue[i]; }
    }
  }

  lemma AppendedRetries(b: Bot, r: Bot)
    requires Appended(b, r) && r == b.(queue := r.queue) && r.queue[|b.queue|].kind.ForgetKind? && RetriesOk(b)
    ensures RetriesOk(r)
  {
    AppendedNoIntent(b, r);
    forall i | 0 <= i < |r.queue| && CurrentRetry(r, r.queue[i])
      ensures forall j :: 0 <= j < |r.queue| && CurrentRetry(r, r.queue[j]) ==> j == i
      ensures NoIntent(r) && r.timers == map[] && !HasSession(r)
      ensures Waiting(r) || r.closing || r.profile.None? || !HasEntry(r)
    {
      assert CurrentRetry(b, b.queue[i]);
      forall j | 0 <= j < |r.queue| && CurrentRetry(r, r.queue[j]) ensures j == i {
        assert CurrentRetry(b, b.queue[j]);
      }
    }
  }

  lemma ForgetQueued(b: Bot)
    requires Inv(b)
    ensures Inv(Push(b, ForgetKind, 0))
  {
    var r := Push(b, ForgetKind, 0);
    assert Appended(b, r);
    AppendedChases(b, r);
    AppendedLeaving(b, r);
    AppendedRetries(b, r);
    AppendedNoIntent(b, r);
    ForgetShape(b);
    hide RetriesOk, QueueChases, Leaving, Chased, CurrentRetry, Shape, Sessions;
    assert HeadOk(r) && Fresh(r) && TimersOk(r);
  }

  lemma ForgetShape(b: Bot)
    requires Shape(b) && Sessions(b)
    ensures var r := Push(b, ForgetKind, 0); Shape(r) && Sessions(r)
  {
    var r := Push(b, ForgetKind, 0);
    forall i | 0 <= i < |r.queue| ensures TaskOk(r, i) {
      if i < |b.queue| { assert TaskOk(b, i) && r.queue[i] == b.queue[i]; }
    }
  }

  ghost predicate Fired(b: Bot, r: Bot)
  {
    && HasEntry(b)
    && r == b.(objects := b.objects[b.entry.value := Current(b).(timer := None)], timers := map[],
               queue := b.queue + [Task(RetryKind, b.generation, Queued)])
  }

  lemma FireFacts(b: Bot, timer: nat)
    requires TimersOk(b) && timer in b.timers
    ensures Fired(b, Fire(b, timer))
  {
    assert b.timers - {timer} == map[] by {
      forall t | t in b.timers ensures t == timer { assert Current(b).timer == Some(t); }
    }
  }

  lemma TimerFiredKeeps(b: Bot, timer: nat)
    requires Inv(b) && timer in b.timers
    ensures Inv(Fire(b, timer))
  {
    var r := Fire(b, timer);
    FireFacts(b, timer);
    hide Fire;
    var quiet := b.(objects := r.objects, timers := map[]);
    assert Waiting(b) && NoIntent(b) && !b.closing && Desired(b);
    assert forall i :: 0 <= i < |b.queue| ==> !CurrentRetry(b, b.queue[i]);
    forall i | 0 <= i < |r.queue| ensures TaskOk(r, i) {
      if i < |b.queue| { assert TaskOk(b, i) && r.queue[i] == b.queue[i]; }
    }
    assert forall i :: 0 <= i < |b.queue| ==> r.queue[i] == b.queue[i];
    assert Shape(r) && Sessions(r) && HeadOk(r) && Fresh(r) && Unhandled(r);
    assert r.queue[|b.queue|].generation == r.generation;
    assert TimersOk(r) && NoIntent(r) && RetriesOk(r);
  }

  /** The state after a disconnect resolved, as a relation. */
  ghost predicate Ends(b: Bot, r: Bot)
  {
    && EndingNow(b) && |r.queue| == |b.queue|
    && var slot, session := b.queue[0].stage.slot, b.queue[0].stage.session;
    && slot < |b.objects| && |r.objects| == |b.objects|
    && r == b.(open := b.open - {session}, objects := r.objects, queue := r.queue)
    && r.queue[0] == b.queue[0].(stage := Ended)
    && (forall i :: 1 <= i < |b.queue| ==> r.queue[i] == b.queue[i])
    && (forall o :: 0 <= o < |b.objects| && o != slot ==> r.objects[o] == b.objects[o])
    && r.objects[slot].session.None? && r.objects[slot].timer == b.objects[slot].timer
    && r.objects[slot].waitingSince == b.objects[slot].waitingSince
  }

  lemma FinishEndKeeps(b: Bot)
    requires Inv(b) && EndingNow(b)
    ensures Inv(SetStage(FinishEnd(b, b.queue[0].stage.slot, b.queue[0].stage.session, b.queue[0].generation), Ended))
  {
    var t := b.queue[0];
    var r := SetStage(FinishEnd(b, t.stage.slot, t.stage.session, t.generation), Ended);
    assert Ends(b, r);
    hide SetStage, FinishEnd;
    EndsShape(b, r);
    EndsSessions(b, r);
    EndsChases(b, r);
  }

  lemma EndsShape(b: Bot, r: Bot)
    requires Inv(b) && Ends(b, r)
    ensures Shape(r) && Fresh(r) && RetriesOk(r)
  {
    assert TaskOk(b, 0);
    HeadFacts(b);
    assert forall i :: 0 <= i < |r.queue| ==> r.queue[i].kind == b.queue[i].kind && r.queue[i].generation == b.queue[i].generation;
    forall i | 0 <= i < |r.queue| ensures TaskOk(r, i) && !CurrentRetry(r, r.queue[i]) {
      assert TaskOk(b, i) && !CurrentRetry(b, b.queue[i]);
      if i > 0 { assert r.queue[i] == b.queue[i]; }
    }
  }

  lemma EndsSessions(b: Bot, r: Bot)
    requires Inv(b) && Ends(b, r)
    ensures Sessions(r) && HeadOk(r) && TimersOk(r) && Unhandled(r) && !HasSession(r)
  {
    assert TaskOk(b, 0);
    HeadFacts(b);
  }

  lemma EndsChases(b: Bot, r: Bot)
    requires Inv(b) && Ends(b, r) && !HasSession(r)
    ensures LossSeen(r) && QueueChases(r) && Chased(r) && Leaving(r)
  {
    assert TaskOk(b, 0) && Intent(b.queue[0]);
    assert forall i :: 0 <= i < |r.queue| ==> r.queue[i].kind == b.queue[i].kind && r.queue[i].generation == b.queue[i].generation;
    SameKindsChase(b, r);
    assert Intent(r.queue[0]);
  }

  lemma FailEndKeeps(b: Bot)
    requires Inv(b) && EndingNow(b)
    ensures Inv(Pop(FailEnd(b, b.queue[0].stage.slot)))
  {
    var e := FailEnd(b, b.queue[0].stage.slot);
    assert TaskOk(b, 0) && Intent(b.queue[0]);
    HeadFacts(b);
    FailEndShape(b, e);
    FailEndRest(b, e);
    assert Leaving(e);
    hide Shape, Sessions, HeadOk, Fresh, TimersOk, RetriesOk, Unhandled, QueueChases, Leaving, InQueue;
    PopKeeps(e);
  }

  lemma FailEndShape(b: Bot, e: Bot)
    requires Shape(b) && Sessions(b) && HeadOk(b) && Fresh(b) && EndingNow(b) && e == FailEnd(b, b.queue[0].stage.slot)
    ensures Shape(e) && Sessions(e) && HeadOk(e) && Fresh(e)
  {
    forall i | 0 <= i < |e.queue| ensures TaskOk(e, i) { assert TaskOk(b, i); }
  }

  lemma FailEndRest(b: Bot, e: Bot)
    requires Inv(b) && EndingNow(b) && e == FailEnd(b, b.queue[0].stage.slot) && b.timers == map[] && NoCurrentRetry(b)
    ensures TimersOk(e) && RetriesOk(e) && Unhandled(e) && LossSeen(e) && QueueChases(e)
  {
    hide Chased, Leaving, Fresh;
    assert forall i :: 0 <= i < |e.queue| ==> !CurrentRetry(b, b.queue[i]);
    assert NoCurrentRetry(e);
  }

  // -- events from the transport ------------------------------------------------------------------

  ghost predicate Fewer(b: Bot, r: Bot)
  {
    && r == b.(open := r.open, flights := r.flights, emitted := r.emitted, superseded := r.superseded, now := r.now)
    && r.open <= b.open && r.flights <= b.flights && r.now >= b.now
    && (forall s :: s in r.superseded ==> s < |b.attempts|)
  }

  /** Fewer sessions open or in flight; what is forgotten in flight is not what the Bot relies on. */
  lemma FewerKeeps(b: Bot, r: Bot)
    requires Core(b) && LossSeen(b) && Fewer(b, r)
    ensures Core(r) && LossSeen(r)
    ensures Chased(b) && (!Flying(b) || Flying(r)) ==> Chased(r)
  {
    FewerLeaving(b, r);
    FewerShape(b, r);
    FewerRest(b, r);
    hide Shape, Sessions, HeadOk, Fresh, TimersOk, RetriesOk, Unhandled, QueueChases, Leaving, InQueue;
  }

  lemma FewerShape(b: Bot, r: Bot)
    requires Fewer(b, r) && Shape(b) && Sessions(b)
    ensures Shape(r) && Sessions(r)
  {
    forall i | 0 <= i < |r.queue| ensures TaskOk(r, i) { assert TaskOk(b, i); }
  }

  lemma FewerRest(b: Bot, r: Bot)
    requires Fewer(b, r)
    ensures HeadOk(b) ==> HeadOk(r)
    ensures Fresh(b) ==> Fresh(r)
    ensures TimersOk(b) ==> TimersOk(r)
    ensures RetriesOk(b) ==> RetriesOk(r)
    ensures Unhandled(b) && LossSeen(b) ==> Unhandled(r) && LossSeen(r)
  {
  }

  lemma FewerLeaving(b: Bot, r: Bot)
    requires Fewer(b, r)
    ensures Leaving(b) ==> Leaving(r)
    ensures QueueChases(b) ==> QueueChases(r)
    ensures InQueue(b) ==> InQueue(r)
  {
    if Leaving(b) && !b.closing && HasSession(b) && !(Desired(b) && OfLatest(b, Current(b))) && Current(b).phase != Failed {
      var i :| 0 <= i < |b.queue| && WillClose(b, b.queue[i]);
      assert WillClose(r, r.queue[i]);
    }
    if InQueue(b) {
      var i :| 0 <= i < |b.queue| && b.queue[i].generation == b.generation
               && (Connectful(b.queue[i]) || b.queue[i].kind.RetryKind?);
      assert r.queue[i] == b.queue[i];
    }
  }

  lemma SameCurrent(b: Bot, r: Bot, i: nat, state: BotState)
    requires Inv(b) && HasEntry(b) && i == b.entry.value && r == b.(objects := b.objects[i := state])
    requires state.session == Current(b).session && state.timer == Current(b).timer && state.handled == Current(b).handled
    requires b.timers == map[] && OfLatest(b, Current(b)) && Desired(b)
    requires state.phase == Online && state.session.Some? && state.waitingSince.None?
    ensures Inv(r)
  {
    forall i | 0 <= i < |r.queue| ensures TaskOk(r, i) { assert TaskOk(b, i); }
    assert Shape(r) && Sessions(r) && HeadOk(r) && Fresh(r);
    assert TimersOk(r) && RetriesOk(r) && Unhandled(r) && LossSeen(r) && QueueChases(r);
  }

  lemma ConnectDoneKeeps(b: Bot, session: nat)
    requires Inv(b) && session in b.flights && session < |b.attempts|
    ensures Inv(Connected(b, session))
  {
    var a := b.attempts[session];
    var landed := b.(flights := b.flights - {session});
    if !MayConnect(b, a.generation) || !HasEntry(b) || Current(b).session != Some(session) {
      FewerKeeps(b, landed.(superseded := b.superseded + {session}));
    } else {
      assert a.slot == b.entry.value && OfLatest(b, Current(b));
      assert forall t :: t in b.timers ==> Waiting(b);
      SameCurrent(b, b.(objects := Connected(b, session).objects), a.slot, Connected(b, session).objects[a.slot]);
      FewerKeeps(b.(objects := Connected(b, session).objects), Connected(b, session));
    }
  }

  /** A report is acted on only for the session the map's object holds, and then nothing else is going on. */
  lemma HandlesFacts(b: Bot, session: nat, held: Option<nat>)
    requires Core(b) && LossSeen(b) && session < |b.attempts|
    requires Handles(b, b.attempts[session].generation, held) && (held.Some? ==> held.value == session)
    ensures HasEntry(b) && Current(b).session == Some(session) && held == Some(session)
    ensures Desired(b) || b.profile.Some?
    ensures !b.closing && NoIntent(b) && NoCurrentRetry(b) && b.timers == map[]
  {
    assert forall t :: t in b.timers ==> Waiting(b);
    forall i | 0 <= i < |b.queue| ensures !Intent(b.queue[i]) && !CurrentRetry(b, b.queue[i]) { assert TaskOk(b, i); }
  }

  lemma LossKeeps(c: Config, b: Bot, r: Bot, session: nat, held: Option<nat>, notReady: bool)
    requires Inv(b) && session < |b.attempts|
    requires r == b.(open := b.open - {session}, flights := r.flights, emitted := r.emitted)
    requires r.flights <= b.flights && b.flights - r.flights <= {session}
    requires held.Some? ==> held.value == session
    requires HasSession(b) && Current(b).session == Some(session) ==> held == Some(session) || r.flights == b.flights
    ensures Inv(Disconnected(c, r, b.attempts[session].generation, held, notReady))
  {
    var g := b.attempts[session].generation;
    hide Disconnected;
    FewerKeeps(b, r);
    if Handles(r, g, held) {
      HandlesFacts(r, session, held);
      assert r.open == {};
    } else {
      NotHandled(b, r, session, held);
    }
    DisconnectedKeeps(c, r, g, held, notReady);
  }

  /** A report that is not acted on was not about the session the Bot relies on. */
  lemma NotHandled(b: Bot, r: Bot, session: nat, held: Option<nat>)
    requires Inv(b) && session < |b.attempts|
    requires r == b.(open := b.open - {session}, flights := r.flights, emitted := r.emitted)
    requires b.flights - r.flights <= {session} && r.flights <= b.flights
    requires held.Some? ==> held.value == session
    requires HasSession(b) && Current(b).session == Some(session) ==> held == Some(session) || r.flights == b.flights
    requires !Handles(r, b.attempts[session].generation, held)
    requires Core(r) && LossSeen(r)
    ensures Chased(r)
  {
    FewerKeeps(b, r);
    assert Flying(b) ==> Current(b).session.value in r.flights + (b.flights - r.flights);
    assert Flying(b) ==> OfLatest(b, b.objects[b.entry.value]);
  }

  // -- stopping the runtime ------------------------------------------------------------------------

  lemma CloseBeginKeeps(b: Bot)
    requires Inv(b)
    ensures Inv(ClosingDown(b))
  {
    var r := ClosingDown(b);
    if b.profile.Some? {
      var up := b.(closing := true, generation := b.generation + 1);
      CancelFacts(up);
      CancelFacts(b);
      assert CancelTimer(up).timers == CancelTimer(b).timers;
      hide CancelTimer;
      ClosedKeeps(b, r);
    } else {
      ClosedSame(b, r);
    }
  }

  /** The Bot as shutting down begins: nothing connects any more, and a present profile's retry is disarmed. */
  function ClosingDown(b: Bot): Bot
  {
    if b.profile.Some? then Invalidate(b.(closing := true)) else b.(closing := true)
  }

  lemma ClosedSame(b: Bot, r: Bot)
    requires Inv(b) && b.profile.None? && r == b.(closing := true)
    ensures Inv(r)
  {
    forall i | 0 <= i < |r.queue| ensures TaskOk(r, i) { assert TaskOk(b, i); }
    assert forall t :: t in b.timers ==> Desired(b);
    assert Shape(r) && Sessions(r) && HeadOk(r) && Fresh(r);
    assert TimersOk(r) && RetriesOk(r) && Unhandled(r) && LossSeen(r);
  }

  ghost predicate Invalidated(b: Bot, r: Bot)
  {
    && r == b.(closing := true, generation := b.generation + 1, objects := r.objects, timers := map[])
    && |r.objects| == |b.objects|
    && (forall o :: 0 <= o < |b.objects| ==> r.objects[o] == b.objects[o].(timer := r.objects[o].timer))
    && (forall o :: 0 <= o < |b.objects| && b.objects[o].timer.None? ==> r.objects[o].timer.None?)
    && (HasEntry(b) ==> Current(r).timer.None?)
  }

  lemma ClosedKeeps(b: Bot, r: Bot)
    requires Inv(b) && Invalidated(b, r)
    ensures Inv(r)
  {
    forall i | 0 <= i < |r.queue| ensures TaskOk(r, i) && !CurrentRetry(r, r.queue[i]) { assert TaskOk(b, i); }
    assert Shape(r) && Sessions(r) && HeadOk(r) && Fresh(r);
    assert TimersOk(r) && RetriesOk(r) && Unhandled(r) && LossSeen(r);
  }

  lemma CloseFinishKeeps(b: Bot)
    requires Inv(b) && b.closing
    ensures Inv(FinishClose(b))
  {
    var r := FinishClose(b);
    CancelFacts(b);
    hide CancelTimer;
    assert r.timers == map[];
    assert HasSession(b) ==> b.objects[b.entry.value].session.value < |b.attempts|;
    forall i | 0 <= i < |r.queue| ensures TaskOk(r, i) { assert TaskOk(b, i); }
    assert Shape(r) && Sessions(r) && HeadOk(r) && Fresh(r);
    assert TimersOk(r) && Unhandled(r) && LossSeen(r);
    assert forall i :: 0 <= i < |r.queue| && CurrentRetry(r, r.queue[i]) ==> CurrentRetry(b, b.queue[i]);
  }

  // -- every step ------------------------------------------------------------------------------------

  lemma ElapseKeeps(b: Bot, r: Bot)
    requires Inv(b) && r == b.(now := r.now) && r.now >= b.now
    ensures Inv(r)
  {
    FewerKeeps(b, r);
  }

  lemma IntentKeeps(c: Config, b: Bot, e: Event)
    requires Inv(b) && (e.Spawn? || e.Reconnect? || e.Despawn? || e.Rename?)
    ensures Inv(Step(c, b, e))
  {
    hide Submit, Inv;
    match e
    case Spawn(stored) =>
      if SpawnIntent(b, stored) != b {
        SubmitKeeps(b, b.(profile := Some(b.profile.value.(desiredOnline := true))), SpawnKind);
      }
    case Reconnect => if Desired(b) { SubmitKeeps(b, b, ReconnectKind); }
    case Despawn(stored) =>
      if b.profile.Some? && stored {
        SubmitKeeps(b, b.(profile := Some(b.profile.value.(desiredOnline := false))), DespawnKind);
      }
    case Rename(newName, accepted) =>
      if b.profile.Some? && accepted { SubmitKeeps(b, b, RenameKind(Desired(b), newName)); }
  }

  lemma ReportKeeps(c: Config, b: Bot, e: Event)
    requires Inv(b) && (e.ConnectFailed? || e.Closed?)
    ensures Inv(Step(c, b, e))
  {
    hide Disconnected;
    match e
    case ConnectFailed(session, notReady) =>
      if session in b.flights && session < |b.attempts| {
        LossKeeps(c, b, b.(flights := b.flights - {session}, open := b.open - {session}), session, HeldBy(b, session),
                  notReady) by { HeldIsOwn(b, session); }
      }
    case Closed(session, notReady) =>
      if session < |b.attempts| && session !in b.emitted {
        LossKeeps(c, b, b.(emitted := b.emitted + {session}, open := b.open - {session}), session, Some(session),
                  notReady);
      }
  }

  /** An object holds only sessions made for it, and one object holds only the last it was made for. */
  lemma HeldIsOwn(b: Bot, session: nat)
    requires Inv(b) && session < |b.attempts|
    ensures HeldBy(b, session).Some? ==> HeldBy(b, session).value == session
    ensures HasSession(b) && Current(b).session == Some(session) ==> HeldBy(b, session) == Some(session)
  {
    var slot := b.attempts[session].slot;
    if b.objects[slot].session.Some? {
      var other := b.objects[slot].session.value;
      assert b.attempts[other].slot == slot;
    }
    assert HasSession(b) ==> b.attempts[b.objects[b.entry.value].session.value].slot == b.entry.value;
  }

  lemma StepKeeps(c: Config, b: Bot, e: Event)
    requires Inv(b)
    ensures Inv(Step(c, b, e))
  {
    match e
    case Elapse(ms) => ElapseKeeps(b, Step(c, b, e));
    case Spawn(_) => IntentKeeps(c, b, e);
    case Reconnect => IntentKeeps(c, b, e);
    case Despawn(_) => IntentKeeps(c, b, e);
    case Rename(_, _) => IntentKeeps(c, b, e);
    case Forget => ForgetQueued(b);
    case Proceed(created, stored) => AdvanceKeeps(c, b, created, stored);
    case DisconnectDone => if EndingNow(b) { FinishEndKeeps(b); }
    case DisconnectFailed => if EndingNow(b) { FailEndKeeps(b); }
    case ConnectDone(session) => if session in b.flights && session < |b.attempts| { ConnectDoneKeeps(b, session); }
    case ConnectFailed(_, _) => ReportKeeps(c, b, e);
    case Closed(_, _) => ReportKeeps(c, b, e);
    case SupersededClosed(session) => FewerKeeps(b, Step(c, b, e));
    case TimerFired(timer) => if timer in b.timers { TimerFiredKeeps(b, timer); }
    case CloseBegin => CloseBeginKeeps(b);
    case CloseFinish => if b.closing { CloseFinishKeeps(b); }
  }

  lemma {:induction false} RunKeeps(c: Config, b: Bot, es: seq<Event>)
    requires Inv(b)
    ensures Inv(Run(c, b, es))
    decreases |es|
  {
    hide Step, Inv;
    if es != [] {
      StepKeeps(c, b, es[0]);
      RunKeeps(c, Step(c, b, es[0]), es[1..]);
    }
  }

  lemma StartedOk(c: Config, profile: Profile, now: int, created: bool)
    ensures Inv(Started(c, profile, now, created))
  {
    var b := Bot(Some(profile), 0, false, now, [], None, [], {}, {}, {}, {}, [], map[], 0);
    if profile.desiredOnline {
      ConnectKeeps(c, Invalidate(b), true, created);
    }
  }
}
