/** What the block breaking of a session keeps over every run. */
module MiningRuns {
  import opened Common
  import opened Mining

  // -- the actions sent to the server ------------------------------------------------------

  /** What the server sees: an action, or a cut where the client dropped everything without telling. */
  datatype Sent = Did(action: Action) | Cut

  function AsSent(actions: seq<Action>): seq<Sent>
  {
    if actions == [] then [] else [Did(actions[0])] + AsSent(actions[1..])
  }

  function Shown(m: Mining, e: Event): seq<Sent> { if e.DoDiscard? then [Cut] else AsSent(Sends(m, e)) }

  function Trace(m: Mining, es: seq<Event>): seq<Sent>
    decreases |es|
  {
    if es == [] then [] else Shown(m, es[0]) + Trace(Apply(m, es[0]), es[1..])
  }

  /** The start the server has seen and not yet seen aborted. */
  type Open = Option<Sent>

  function Opens(s: Sent): Open { if s.Did? && s.action.StartBreak? then Some(s) else None }

  predicate Follows(open: Open, s: Sent)
  {
    s.Cut? || (if s.action.StartBreak? then open.None? else open == Some(Did(StartBreak(s.action.place, s.action.face))))
  }

  predicate AllFollow(open: Open, sent: seq<Sent>)
    decreases |sent|
  {
    sent == [] || (Follows(open, sent[0]) && AllFollow(Opens(sent[0]), sent[1..]))
  }

  function OpenAfter(open: Open, sent: seq<Sent>): Open
    decreases |sent|
  {
    if sent == [] then open else OpenAfter(Opens(sent[0]), sent[1..])
  }

  /** The abort still owed to the server when nothing it has seen started is being broken. */
  function Owed(m: Mining, open: Open): seq<Action>
  {
    if IsActive(m) && m.job.value.ticks > 0 then []
    else if open.Some? && open.value.Did? then [AbortBreak(open.value.action.place, open.value.action.face)]
    else []
  }

  function Fresh(m: Mining): seq<Action>
  {
    if IsActive(m) && m.job.value.ticks == 0 && m.job.value.place.Some?
    then [StartBreak(m.job.value.place.value, m.job.value.face)] else []
  }

  /** The queue is what is owed and then what is new; the block being broken is the one the server saw started. */
  predicate Shaped(m: Mining, open: Open)
  {
    && (open.Some? ==> open.value.Did? && open.value.action.StartBreak?)
    && m.pending == Owed(m, open) + Fresh(m)
    && (IsActive(m) ==> m.job.value.place.Some?)
    && (IsActive(m) && m.job.value.ticks > 0
        ==> open == Some(Did(StartBreak(m.job.value.place.value, m.job.value.face))))
  }

  /** An independent reading of the queue: empty, one abort, one start, or an abort and then a start. */
  predicate FourShapes(pending: seq<Action>)
  {
    || pending == []
    || (|pending| == 1)
    || (|pending| == 2 && pending[0].AbortBreak? && pending[1].StartBreak?)
  }

  lemma ShapedQueue(m: Mining, open: Open)
    requires Shaped(m, open)
    ensures FourShapes(m.pending)
    ensures IsActive(m) ==> (m.job.value.ticks == 0 <==> exists a :: a in m.pending && a.StartBreak?)
    ensures !IsActive(m) ==> forall a :: a in m.pending ==> a.AbortBreak?
  {
    if Fresh(m) != [] { assert Fresh(m)[0] in m.pending; }
  }

  lemma StopShaped(m: Mining, open: Open, reason: string, state: JobState, preserveLoop: bool)
    requires Shaped(m, open) && state != Active
    ensures var r := StopMining(m, reason, state, false, preserveLoop);
      Shaped(r, open) && !IsActive(r) && r.pending == Owed(r, open)
  {
    var owed := Owed(m, open);
    if IsActive(m) && m.job.value.ticks == 0 {
      assert m.pending[..|owed|] == owed && m.pending[|owed|..] == Fresh(m);
      WithoutStartsOf(owed, m.job.value.place.value, m.job.value.face);
    }
  }

  lemma WithoutStartsOf(owed: seq<Action>, place: Place, face: int)
    requires |owed| <= 1 && forall a :: a in owed ==> a.AbortBreak?
    ensures WithoutStarts(owed + [StartBreak(place, face)]) == owed
  {
    var all := owed + [StartBreak(place, face)];
    var last := [StartBreak(place, face)];
    assert WithoutStarts(last) == [] by { assert last[1..] == []; }
    if owed != [] {
      assert owed[0] in owed && all[0] == owed[0] && all[1..] == last;
      assert [owed[0]] + [] == owed;
    } else {
      assert all == last;
    }
  }

  lemma StartShaped(m: Mining, open: Open, t: Target, loopId: Option<nat>, s: Surroundings)
    requires Shaped(m, open) && StartMining(m, t, loopId, s).Ok?
    ensures Shaped(StartMining(m, t, loopId, s).value, open)
  {
    hide StopMining;
    if loopId.Some? && (m.loop.None? || m.loop.value.id != loopId.value) {
    } else {
      var own := if loopId.None? then m.(loop := None) else m;
      assert Shaped(own, open);
      if !SameTarget(own, t) {
        StopShaped(own, open, "target changed", Canceled, loopId.Some?);
        var stopped := StopMining(own, "target changed", Canceled, false, loopId.Some?);
        var r := StartMining(m, t, loopId, s).value;
        assert Owed(r, open) == stopped.pending && Fresh(r) == [StartBreak(t.place, t.face)];
      }
    }
  }

  lemma CompleteShaped(m: Mining, open: Open)
    requires Shaped(m, open)
    ensures Shaped(CompleteMining(m), open)
  {
    hide StopMining;
    StopShaped(m, open, "BDS changed target block", Completed, true);
    var stopped := StopMining(m, "BDS changed target block", Completed, false, true);
    if stopped.loop.Some? {
      var counted := stopped.(loop := Some(stopped.loop.value.(broken := stopped.loop.value.broken + 1)));
      assert Shaped(counted, open);
      StopShaped(counted, open, "block count reached", Completed, false);
    }
  }

  lemma RestartShaped(m: Mining, open: Open)
    requires Shaped(m, open)
    ensures Shaped(RestartMining(m), open)
  {
    if IsActive(m) {
      var owed := Owed(m, open);
      if m.job.value.ticks == 0 { WithoutStartsOf(owed, m.job.value.place.value, m.job.value.face); }
    }
  }

  lemma TimedShaped(m: Mining, open: Open)
    requires Shaped(m, open)
    ensures Shaped(Timed(Leased(m)), open)
  {
    hide StopMining;
    if m.loop.Some? {
      var aged := m.(loop := Some(m.loop.value.(lease := m.loop.value.lease + 1)));
      assert Shaped(aged, open);
      StopShaped(aged, open, "mining controller timed out", Failed, false);
    }
    var leased := Leased(m);
    if leased.loop.Some? && leased.loop.value.remaining.Some? {
      var aged := leased.(loop := Some(leased.loop.value.(remaining := Some(leased.loop.value.remaining.value - 1))));
      assert Shaped(aged, open);
      StopShaped(aged, open, "duration elapsed", Completed, false);
    }
  }

  lemma SentTwo(owed: seq<Action>, news: seq<Action>)
    requires |owed| <= 1 && |news| <= 1
    ensures AsSent(owed + news) == AsSent(owed) + AsSent(news)
    ensures owed != [] ==> AsSent(owed) == [Did(owed[0])]
    ensures news != [] ==> AsSent(news) == [Did(news[0])]
  {
    if owed != [] { assert (owed + news)[1..] == news; } else { assert owed + news == news; }
  }

  /** An owed abort and then a new start may follow what is open, and leave only the new start open. */
  lemma FollowTwo(open: Open, owed: seq<Action>, news: seq<Action>)
    requires |owed| <= 1 && |news| <= 1
    requires owed != [] ==> owed[0].AbortBreak? && Follows(open, Did(owed[0]))
    requires news != [] ==> news[0].StartBreak? && (open.None? || owed != [])
    ensures AllFollow(open, AsSent(owed + news))
    ensures OpenAfter(open, AsSent(owed + news))
            == if news != [] then Some(Did(news[0])) else if owed != [] then None else open
  {
    SentTwo(owed, news);
    var sent := AsSent(owed + news);
    if owed != [] {
      assert sent[0] == Did(owed[0]) && sent[1..] == AsSent(news);
    } else {
      assert sent == AsSent(news);
    }
    if news != [] {
      assert AsSent(news)[1..] == [];
      assert OpenAfter(None, AsSent(news)) == Some(Did(news[0]));
    }
  }

  lemma TickShaped(m: Mining, open: Open, inReach: bool)
    requires Shaped(m, open)
    ensures var sent := AsSent(Ticked(m, inReach).pending);
      && AllFollow(open, sent) && Shaped(Ticked(m, inReach).(pending := []), OpenAfter(open, sent))
  {
    hide StopMining, Leased, Timed;
    TimedShaped(m, open);
    var timed := Timed(Leased(m));
    StopShaped(timed, open, "target moved out of reach", Failed, true);
    StopShaped(timed, open, "timed out waiting for BDS to change target", Failed, true);
    var ticked := Ticked(m, inReach);
    if IsActive(ticked) {
      SentTwo(Owed(timed, open), Fresh(timed));
      FollowTwo(open, Owed(timed, open), Fresh(timed));
    } else {
      SentTwo(Owed(ticked, open), []);
      FollowTwo(open, Owed(ticked, open), []);
    }
  }

  /** Every event sends only what may follow, and keeps the shape of the queue. */
  lemma ApplyShaped(m: Mining, open: Open, e: Event)
    requires Shaped(m, open)
    ensures AllFollow(open, Shown(m, e)) && Shaped(Apply(m, e), OpenAfter(open, Shown(m, e)))
  {
    hide StopMining, RestartMining, CompleteMining, StartMining, Ticked;
    match e
    case DoStartLoop(_, _, _, _) => StopShaped(m, open, "continuous mining restarted", Canceled, false);
    case DoContinue(loopId, target, around) =>
      if target.Some? && StartMining(m, target.value, Some(loopId), around).Ok? {
        StartShaped(m, open, target.value, Some(loopId), around);
      }
    case DoStart(single, here) => if StartMining(m, single, None, here).Ok? { StartShaped(m, open, single, None, here); }
    case DoStop(_, reason) => StopShaped(m, open, reason, Canceled, false);
    case DoRestart => RestartShaped(m, open);
    case DoBlockUpdate(_, _) => CompleteShaped(m, open);
    case DoTeleported => StopShaped(m, open, "teleported", Canceled, true);
    case DoDiscard(reason, preserveLoop) => DiscardShaped(m, reason, preserveLoop);
    case DoTick(inReach) => TickShaped(m, open, inReach);
  }

  lemma DiscardShaped(m: Mining, reason: string, preserveLoop: bool)
    ensures Shaped(StopMining(m, reason, Canceled, true, preserveLoop), None)
  {
  }

  lemma {:induction false} FollowAppend(open: Open, a: seq<Sent>, b: seq<Sent>)
    requires AllFollow(open, a) && AllFollow(OpenAfter(open, a), b)
    ensures AllFollow(open, a + b)
    decreases |a|
  {
    if a == [] {
      assert a + b == b;
    } else {
      assert (a + b)[1..] == a[1..] + b;
      FollowAppend(Opens(a[0]), a[1..], b);
    }
  }

  lemma {:induction false} TraceFollows(m: Mining, open: Open, es: seq<Event>)
    requires Shaped(m, open)
    ensures AllFollow(open, Trace(m, es)) && exists o :: Shaped(Run(m, es), o)
    decreases |es|
  {
    hide Shaped, Apply, Shown;
    if es != [] {
      ApplyShaped(m, open, es[0]);
      var o := OpenAfter(open, Shown(m, es[0]));
      TraceFollows(Apply(m, es[0]), o, es[1..]);
      FollowAppend(open, Shown(m, es[0]), Trace(Apply(m, es[0]), es[1..]));
      var last :| Shaped(Run(Apply(m, es[0]), es[1..]), last);
      assert Shaped(Run(m, es), last);
    } else {
      assert Shaped(Run(m, es), open);
    }
  }

  /** An abort directly follows the start of the same block; a start never directly follows a start. */
  ghost predicate Paired(sent: seq<Sent>)
  {
    forall i :: 0 <= i < |sent| && sent[i].Did? ==>
      if sent[i].action.AbortBreak?
      then i > 0 && sent[i - 1] == Did(StartBreak(sent[i].action.place, sent[i].action.face))
      else i == 0 || sent[i - 1].Cut? || sent[i - 1].action.AbortBreak?
  }

  lemma {:induction false} FollowAt(open: Open, sent: seq<Sent>, i: nat)
    requires AllFollow(open, sent) && i < |sent|
    ensures Follows(if i == 0 then open else Opens(sent[i - 1]), sent[i])
    decreases |sent|
  {
    if i > 0 { FollowAt(Opens(sent[0]), sent[1..], i - 1); }
  }

  /**
   * Over every run the queue is empty, one abort, one start, or an abort then a start, and an active block has no
   * tick exactly while its start is queued.
   */
  lemma QueueStaysShaped(es: seq<Event>)
    ensures var m := Run(IDLE, es);
      && FourShapes(m.pending)
      && (IsActive(m) ==> (m.job.value.ticks == 0 <==> exists a :: a in m.pending && a.StartBreak?))
      && (!IsActive(m) ==> forall a :: a in m.pending ==> a.AbortBreak?)
  {
    TraceFollows(IDLE, None, es);
    var o :| Shaped(Run(IDLE, es), o);
    ShapedQueue(Run(IDLE, es), o);
  }

  /** Over every run each abort ends the start sent just before it, and nothing is started twice without one. */
  lemma StartsAndAbortsPair(es: seq<Event>)
    ensures Paired(Trace(IDLE, es))
  {
    var sent := Trace(IDLE, es);
    TraceFollows(IDLE, None, es);
    forall i | 0 <= i < |sent| && sent[i].Did?
      ensures if sent[i].action.AbortBreak?
              then i > 0 && sent[i - 1] == Did(StartBreak(sent[i].action.place, sent[i].action.face))
              else i == 0 || sent[i - 1].Cut? || sent[i - 1].action.AbortBreak?
    {
      FollowAt(None, sent, i);
    }
  }

  /** Between one start and the next without a cut there is exactly one abort, of the first block. */
  lemma OneAbortBetweenStarts(es: seq<Event>, i: nat, j: nat)
    requires var sent := Trace(IDLE, es);
      && i < j < |sent| && Opens(sent[i]).Some? && Opens(sent[j]).Some?
      && forall k :: i < k < j ==> sent[k].Did? && Opens(sent[k]).None?
    ensures var sent := Trace(IDLE, es);
      j == i + 2 && sent[i + 1] == Did(AbortBreak(sent[i].action.place, sent[i].action.face))
  {
    var sent := Trace(IDLE, es);
    StartsAndAbortsPair(es);
    assert sent[i + 1].Did? && Opens(sent[i + 1]).None?;
    assert sent[i + 2].Did? && (j > i + 2 ==> Opens(sent[i + 2]).None?);
  }

}
