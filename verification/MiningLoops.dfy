/** When a mining loop ends, told from the events it has seen. */
module MiningLoops {
  import opened Common
  import opened Mining

  /** Ticks since the start, ticks since the last successful continue, and blocks completed. */
  datatype Account = Account(ticks: nat, quiet: nat, broken: nat)

  predicate Renews(e: Event, id: nat)
  {
    e.DoContinue? && e.loopId == id && (e.target.None? || TargetRefusal(e.target.value, e.around).None?)
  }

  predicate Completes(m: Mining, e: Event)
  {
    && e.DoBlockUpdate? && IsActive(m)
    && m.job.value.place == Some(e.place) && m.job.value.blockId != e.blockId
  }

  function Noted(a: Account, m: Mining, e: Event, id: nat): Account
  {
    if e.DoTick? then a.(ticks := a.ticks + 1, quiet := a.quiet + 1)
    else if Renews(e, id) then a.(quiet := 0)
    else if Completes(m, e) then a.(broken := a.broken + 1)
    else a
  }

  /** The account of a run of events from `m`. */
  function Kept(m: Mining, es: seq<Event>, id: nat): Account
  {
    if es == [] then Account(0, 0, 0)
    else Noted(Kept(m, es[..|es| - 1], id), Run(m, es[..|es| - 1]), es[|es| - 1], id)
  }

  predicate Within(a: Account, duration: Option<int>, count: Option<int>)
  {
    && a.quiet < LEASE_TICKS
    && (duration.Some? ==> a.ticks <= duration.value)
    && (count.Some? ==> a.broken < count.value)
  }

  ghost predicate AlwaysWithin(m: Mining, es: seq<Event>, id: nat, duration: Option<int>, count: Option<int>)
  {
    forall k :: 0 <= k <= |es| ==> Within(Kept(m, es[..k], id), duration, count)
  }

  /** Nothing but its own lease, budgets and completions bears on the loop. */
  predicate LeftAlone(e: Event, id: nat)
  {
    match e
    case DoStartLoop(duration, count, available, _) => BudgetRefusal(duration, count, available).Some?
    case DoStart(single, here) => TargetRefusal(single, here).Some?
    case DoStop(only, _) => only.Some? && only.value != id
    case DoDiscard(_, preserveLoop) => preserveLoop
    case _ => true
  }

  predicate Tracks(m: Mining, a: Account, id: nat, duration: Option<int>, count: Option<int>)
  {
    && m.loop.Some? && m.loop.value.id == id
    && m.loop.value.lease == a.quiet && m.loop.value.broken == a.broken
    && m.loop.value.remaining == (if duration.Some? then Some(duration.value - a.ticks) else None)
    && m.loop.value.count.Some? == count.Some?
    && (count.Some? ==> m.loop.value.count.value == count.value)
  }

  /** What a loop that ran out reports on its last job: the lease is looked at before the duration. */
  predicate Reports(m: Mining, a: Account, duration: Option<int>, count: Option<int>)
  {
    && m.job.Some? && m.job.value.blocksBroken == Some(a.broken)
    && (count.Some? ==> m.job.value.blockCount.Some? && m.job.value.blockCount.value == count.value)
    && (if a.quiet >= LEASE_TICKS then m.job.value.state == Failed && m.job.value.reason == "mining controller timed out"
        else m.job.value.state == Completed
             && m.job.value.reason == if duration.Some? && a.ticks > duration.value then "duration elapsed"
                                      else "block count reached")
  }

  lemma TickTracks(m: Mining, a: Account, id: nat, inReach: bool, duration: Option<int>, count: Option<int>)
    requires Tracks(m, a, id, duration, count) && Within(a, duration, count)
    ensures var r, b := Ticked(m, inReach), a.(ticks := a.ticks + 1, quiet := a.quiet + 1);
      if Within(b, duration, count) then Tracks(r, b, id, duration, count)
      else r.loop.None? && Reports(r, b, duration, count)
  {
  }

  lemma CompletionTracks(m: Mining, a: Account, id: nat, duration: Option<int>, count: Option<int>)
    requires Tracks(m, a, id, duration, count) && Within(a, duration, count)
    ensures var r, b := CompleteMining(m), a.(broken := a.broken + 1);
      if Within(b, duration, count) then Tracks(r, b, id, duration, count)
      else r.loop.None? && Reports(r, b, duration, count)
  {
  }

  /** One event: the loop lives on, in step with its account, exactly while the account is within bounds. */
  lemma EventTracks(m: Mining, a: Account, id: nat, e: Event, duration: Option<int>, count: Option<int>)
    requires Tracks(m, a, id, duration, count) && Within(a, duration, count) && LeftAlone(e, id)
    ensures var r, b := Apply(m, e), Noted(a, m, e, id);
      if Within(b, duration, count) then Tracks(r, b, id, duration, count)
      else r.loop.None? && Reports(r, b, duration, count)
  {
    match e
    case DoTick(inReach) => TickTracks(m, a, id, inReach, duration, count);
    case DoBlockUpdate(_, _) => CompletionTracks(m, a, id, duration, count);
    case _ =>
  }

  lemma StaysEnded(m: Mining, e: Event, id: nat)
    requires m.loop.None? && LeftAlone(e, id)
    ensures Apply(m, e).loop.None?
  {
  }

  lemma {:induction false} RunSnoc(m: Mining, es: seq<Event>)
    requires es != []
    ensures Run(m, es) == Apply(Run(m, es[..|es| - 1]), es[|es| - 1])
    decreases |es|
  {
    hide Apply;
    if |es| > 1 {
      RunSnoc(Apply(m, es[0]), es[1..]);
      assert es[..|es| - 1][1..] == es[1..][..|es| - 2];
    }
  }

  lemma WithinSnoc(m: Mining, es: seq<Event>, id: nat, duration: Option<int>, count: Option<int>)
    requires es != []
    ensures AlwaysWithin(m, es, id, duration, count)
            <==> AlwaysWithin(m, es[..|es| - 1], id, duration, count) && Within(Kept(m, es, id), duration, count)
  {
    hide Kept, Within;
    var before := es[..|es| - 1];
    assert es[..|es|] == es;
    forall k | 0 <= k <= |before| ensures before[..k] == es[..k] {}
    if AlwaysWithin(m, before, id, duration, count) && Within(Kept(m, es, id), duration, count) {
      forall k | 0 <= k <= |es| ensures Within(Kept(m, es[..k], id), duration, count) {
        if k < |es| { assert before[..k] == es[..k]; }
      }
    }
    if AlwaysWithin(m, es, id, duration, count) {
      forall k | 0 <= k <= |before| ensures Within(Kept(m, before[..k], id), duration, count) {
        assert before[..k] == es[..k];
      }
    }
  }

  /**
   * A loop left alone is alive after a run exactly when at every point of it fewer than 200 ticks had passed since the
   * last successful continue, no more ticks than its duration, and fewer blocks than its count were done.
   */
  lemma {:induction false} LoopLivesExactly(m0: Mining, duration: Option<int>, count: Option<int>, available: bool, id: nat,
                                            es: seq<Event>)
    requires StartLoop(m0, duration, count, available, id).Ok? && forall e :: e in es ==> LeftAlone(e, id)
    ensures var m := StartLoop(m0, duration, count, available, id).value;
      && (Run(m, es).loop.Some? <==> AlwaysWithin(m, es, id, duration, count))
      && (Run(m, es).loop.Some? ==> Tracks(Run(m, es), Kept(m, es, id), id, duration, count))
    decreases |es|
  {
    var m := StartLoop(m0, duration, count, available, id).value;
    if es == [] {
      forall k | 0 <= k <= |es| ensures Within(Kept(m, es[..k], id), duration, count) { assert es[..k] == []; }
    } else {
      hide Apply, Within, Tracks, Reports, StartLoop, LeftAlone, Noted, AlwaysWithin;
      var before, last := es[..|es| - 1], es[|es| - 1];
      assert forall e :: e in before ==> e in es;
      LoopLivesExactly(m0, duration, count, available, id, before);
      RunSnoc(m, es);
      WithinSnoc(m, es, id, duration, count);
      if Run(m, before).loop.Some? {
        AlwaysAtEnd(m, before, id, duration, count);
        EventTracks(Run(m, before), Kept(m, before, id), id, last, duration, count);
        TracksLoop(Run(m, es), Kept(m, es, id), id, duration, count);
      } else {
        StaysEnded(Run(m, before), last, id);
      }
    }
  }

  lemma TracksLoop(m: Mining, a: Account, id: nat, duration: Option<int>, count: Option<int>)
    ensures Tracks(m, a, id, duration, count) ==> m.loop.Some?
  {
  }

  lemma AlwaysAtEnd(m: Mining, es: seq<Event>, id: nat, duration: Option<int>, count: Option<int>)
    requires AlwaysWithin(m, es, id, duration, count)
    ensures Within(Kept(m, es, id), duration, count)
  {
    assert es[..|es|] == es;
  }

  /** The event that ends a loop left alone leaves a job saying why, with the blocks it had completed by then. */
  lemma LoopEndReported(m0: Mining, duration: Option<int>, count: Option<int>, available: bool, id: nat,
                        es: seq<Event>, last: Event)
    requires StartLoop(m0, duration, count, available, id).Ok? && forall e :: e in es + [last] ==> LeftAlone(e, id)
    requires var m := StartLoop(m0, duration, count, available, id).value;
      Run(m, es).loop.Some? && Run(m, es + [last]).loop.None?
    ensures var m := StartLoop(m0, duration, count, available, id).value;
      && !Within(Kept(m, es + [last], id), duration, count)
      && Reports(Run(m, es + [last]), Kept(m, es + [last], id), duration, count)
  {
    hide Apply, Within, Tracks, Reports, StartLoop, LeftAlone, Noted, AlwaysWithin;
    var m := StartLoop(m0, duration, count, available, id).value;
    assert (es + [last])[..|es|] == es;
    assert forall e :: e in es ==> e in es + [last];
    assert last in es + [last];
    LoopLivesExactly(m0, duration, count, available, id, es);
    AlwaysAtEnd(m, es, id, duration, count);
    RunSnoc(m, es + [last]);
    EventTracks(Run(m, es), Kept(m, es, id), id, last, duration, count);
    TracksLoop(Run(m, es + [last]), Kept(m, es + [last], id), id, duration, count);
  }

  // -- stale loop ids ---------------------------------------------------------------------------

  /** An event of a controller that names the loop `id`. */
  predicate Names(e: Event, id: nat)
  {
    (e.DoContinue? && e.loopId == id) || (e.DoStop? && e.only == Some(id))
  }

  function WithoutNaming(es: seq<Event>, id: nat): seq<Event>
  {
    if es == [] then [] else (if Names(es[0], id) then [] else [es[0]]) + WithoutNaming(es[1..], id)
  }

  /** A loop other than the current one, never started again, cannot be continued or stopped by anyone. */
  lemma {:induction false} StaleLoopChangesNothing(m: Mining, es: seq<Event>, id: nat)
    requires m.loop.None? || m.loop.value.id != id
    requires forall e :: e in es && e.DoStartLoop? ==> e.id != id
    ensures Run(m, es) == Run(m, WithoutNaming(es, id))
    decreases |es|
  {
    if es != [] {
      hide Apply;
      assert es[0] in es;
      StaleApply(m, es[0], id);
      StaleLoopChangesNothing(Apply(m, es[0]), es[1..], id);
      if !Names(es[0], id) {
        assert WithoutNaming(es, id)[1..] == WithoutNaming(es[1..], id);
      } else {
        assert WithoutNaming(es, id) == WithoutNaming(es[1..], id);
      }
    }
  }

  lemma StaleApply(m: Mining, e: Event, id: nat)
    requires m.loop.None? || m.loop.value.id != id
    requires e.DoStartLoop? ==> e.id != id
    ensures Names(e, id) ==> Apply(m, e) == m
    ensures Apply(m, e).loop.None? || Apply(m, e).loop.value.id != id
  {
  }
}
