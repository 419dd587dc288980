/** Exactly which candidate names the publication of runtime/src/local-identity.js is safe for. */
module ArtifactExact {
  import opened Common
  import opened Artifacts
  import opened ArtifactRuns

  // -- what few takers are enough for ---------------------------------------------------------------

  /** The published file is never unfinished, and once there it is never replaced or rewritten. */
  lemma NeverPartialNorReplaced(s: System, es: seq<Event>, more: seq<Event>)
    requires Initial(s) && (s.dir.final.Some? || AtMostTakers(s, 2))
    ensures var t, u := Run(s, es), Run(Run(s, es), more);
      && !PartlyPublished(t)
      && (t.dir.final.Some? ==>
            && u.dir.final == t.dir.final && t.dir.final.value < |t.dir.inodes| <= |u.dir.inodes|
            && u.dir.inodes[t.dir.final.value] == t.dir.inodes[t.dir.final.value])
  {
    InitialUncrowded(s, 2);
    RunUncrowded(s, es, s.dir.names.Keys, 2);
    if Run(s, es).dir.final.Some? { NeverReplaced(s, es, more); }
  }

  /** The process that reports creating the file returns the value that it made up itself. */
  lemma CreatorMadeTheValue(s: System, es: seq<Event>, i: nat)
    requires Initial(s) && (s.dir.final.Some? || AtMostTakers(s, 2))
    requires Returned(Run(s, es), i) && ReturnOf(Run(s, es), i).created
    ensures ReturnOf(Run(s, es), i).value == Run(s, es).procs[i].value
  {
    InitialUncrowded(s, 2);
    RunUncrowded(s, es, s.dir.names.Keys, 2);
    ReturnsAgree(s, es, i);
    assert Creates(Run(s, es).procs[i].pc);
  }

  /** A process that has yet to publish loses its candidate name to another process's step. */
  predicate LosesCandidate(s: System, e: Event, i: nat)
  {
    && i < |s.procs| && i != e.process && Publishing(s.procs[i].pc)
    && s.procs[i].name in s.dir.names && s.procs[i].name !in Step(s, e).dir.names
  }

  lemma KeptWhileUncrowded(s: System, e: Event, i: nat, listed: set<Name>)
    requires Uncrowded(s, listed, 1) && LosesCandidate(s, e, i)
    ensures s.dir.final.Some?
  {
    var p := s.procs[e.process];
    assert Sound(s.dir, p);
    if s.dir.final.None? { OnlyItsTakerRemoves(s, listed, i, e.process); }
  }

  /** Every process of its own name, none of them left behind by a crashed run. */
  ghost predicate StayApart(s: System, listed: set<Name>)
  {
    && (forall i, k :: 0 <= i < k < |s.procs| ==> s.procs[i].name != s.procs[k].name)
    && (forall i :: 0 <= i < |s.procs| ==> s.procs[i].name !in listed)
  }

  /** No process has thrown or is about to, finds its name taken, or looks for a winner that is not there. */
  ghost predicate Calm(s: System) { forall i :: 0 <= i < |s.procs| ==> CalmProcess(s.dir, s.procs[i]) }

  predicate CalmProcess(dir: Directory, p: Process)
  {
    && Given(p.pc) != Some(Threw)
    && (p.pc.LoadingWinner? ==> dir.final.Some?)
    && (p.pc.Checking? || p.pc.Opening? ==> p.name !in dir.names)
  }

  lemma {:induction false} ApartTakers(procs: seq<Process>, n: Name)
    requires forall i, k :: 0 <= i < k < |procs| ==> procs[i].name != procs[k].name
    ensures Takers(procs, n) <= 1
    ensures (forall i :: 0 <= i < |procs| ==> procs[i].name != n) ==> Takers(procs, n) == 0
  {
    if procs != [] {
      var before := procs[..|procs| - 1];
      assert forall i :: 0 <= i < |before| ==> before[i] == procs[i];
      ApartTakers(before, n);
    }
  }

  lemma LinkingNamed(s: System, listed: set<Name>, i: nat)
    requires Inv(s) && i < |s.procs| && s.procs[i].pc.Linking? && s.procs[i].name !in listed
    requires Balanced(s, listed, s.procs[i].name) && Fits(s, listed, 1, s.procs[i].name)
    ensures s.procs[i].name in s.dir.names
  {
    var n, own := s.procs[i].name, {i};
    assert Sound(s.dir, s.procs[i]);
    assert |own| == 1;
    TotalOf(s.procs, Opens(n), own);
    TotalOf(s.procs, Unspent(n, Owner(s.dir, n)), own);
    TakersSplit(s, n);
  }

  lemma SmoothStep(s: System, e: Event, listed: set<Name>)
    requires Uncrowded(s, listed, 1) && StayApart(s, listed) && Calm(s) && (e.act == Go || e.act == Crashes)
    ensures StayApart(Step(s, e), listed) && Calm(Step(s, e))
  {
    if e.process < |s.procs| {
      var p, t := s.procs[e.process], Step(s, e);
      assert Sound(s.dir, p) && CalmProcess(s.dir, p);
      if s.dir.final.None? && p.pc.Linking? {
        assert Balanced(s, listed, p.name) && Fits(s, listed, 1, p.name);
        LinkingNamed(s, listed, e.process);
      }
      hide Pending;
      forall i | 0 <= i < |t.procs| ensures CalmProcess(t.dir, t.procs[i]) { assert CalmProcess(s.dir, s.procs[i]); }
    }
  }

  lemma {:induction false} SmoothRun(s: System, es: seq<Event>, listed: set<Name>)
    requires Uncrowded(s, listed, 1) && StayApart(s, listed) && Calm(s) && AllSmooth(es)
    ensures NoneThrew(Run(s, es))
    decreases |es|
  {
    if es == [] {
      forall i | 0 <= i < |s.procs| ensures s.procs[i].pc != Ended(Threw) { assert CalmProcess(s.dir, s.procs[i]); }
    } else {
      assert es[0] in es;
      hide Uncrowded, Step, StayApart, Calm;
      StepUncrowded(s, es[0], listed, 1);
      SmoothStep(s, es[0], listed);
      SmoothRun(Step(s, es[0]), es[1..], listed);
    }
  }

  // -- where the file was there before ------------------------------------------------------------------

  /** Nobody opens anything: every process reads the file, whatever the candidate names are. */
  ghost predicate Served(s: System)
  {
    && s.dir.final.Some? && s.dir.final.value < |s.dir.inodes| && s.dir.inodes[s.dir.final.value].Complete?
    && forall i :: 0 <= i < |s.procs| ==> Reads(s.procs[i].pc)
  }

  predicate Reads(pc: Pc)
  {
    match pc
    case Checking => true
    case LoadingExisting => true
    case Listing(found, temporary) => found.Got? && !temporary
    case Cleaning(_, result, own) => result.Got? && !own
    case Ended(_) => true
    case Crashed => true
    case _ => false
  }

  lemma {:induction false} ServedStays(s: System, es: seq<Event>)
    requires Served(s) && NoneThrew(s) && AllSmooth(es)
    ensures NoneThrew(Run(s, es))
    decreases |es|
  {
    if es != [] {
      assert es[0] in es;
      if es[0].process < |s.procs| { assert Reads(s.procs[es[0].process].pc); }
      ServedStays(Step(s, es[0]), es[1..]);
    }
  }

  // -- what more takers lead to ------------------------------------------------------------------------------

  /** Some of the takers of a name, in order. */
  lemma {:induction false} SomeTakers(procs: seq<Process>, n: Name, most: nat) returns (members: seq<nat>)
    requires Takers(procs, n) >= most
    ensures |members| == most && forall j :: 0 <= j < most ==> members[j] < |procs| && procs[members[j]].name == n
    ensures forall j, k :: 0 <= j < k < most ==> members[j] < members[k]
  {
    if most == 0 {
      members := [];
    } else {
      var before, last := procs[..|procs| - 1], |procs| - 1;
      if procs[last].name == n {
        var others := SomeTakers(before, n, most - 1);
        members := others + [last];
      } else {
        members := SomeTakers(before, n, most);
      }
    }
  }

  function Steps(i: nat): Event { Event(i, Go, 0) }

  function Ends(s: System, i: nat): System
    requires i < |s.procs|
  {
    System(s.dir.(names := s.dir.names - {s.procs[i].name}), s.procs[i := s.procs[i].(pc := Ended(Threw))])
  }

  function OpensAt(s: System, i: nat): System
    requires i < |s.procs|
  {
    System(Opened(s.dir, s.procs[i].name), s.procs[i := s.procs[i].(pc := Writing, inode := Some(|s.dir.inodes|))])
  }

  function WritesAt(s: System, i: nat): System
    requires i < |s.procs|
  {
    System(s.dir.(names := s.dir.names[s.procs[i].name := |s.dir.inodes|], inodes := s.dir.inodes + [Complete(s.procs[i].value)]),
           s.procs[i := s.procs[i].(pc := Linking, inode := Some(|s.dir.inodes|))])
  }

  /** A process whose name is taken throws, and removes that name on its way out. */
  lemma Collides(s: System, i: nat)
    requires i < |s.procs| && s.procs[i].pc == Checking && s.dir.final.None? && s.procs[i].name in s.dir.names
    ensures var a := Steps(i);
      && Step(Step(s, a), a) == s.(procs := s.procs[i := s.procs[i].(pc := Removing(Threw))])
      && Step(Step(Step(s, a), a), a) == Ends(s, i)
  {
    var a := Steps(i);
    var t := s.(procs := s.procs[i := s.procs[i].(pc := Opening)]);
    assert Step(s, a) == t;
    var u := s.(procs := s.procs[i := s.procs[i].(pc := Removing(Threw))]);
    assert t.procs[i := u.procs[i]] == u.procs;
    assert Step(t, a) == u;
    assert u.procs[i := Ends(s, i).procs[i]] == Ends(s, i).procs;
  }

  /** A process whose name is free opens its candidate, and then finishes it. */
  lemma OpensAndWrites(s: System, i: nat)
    requires i < |s.procs| && s.procs[i].pc == Checking && s.dir.final.None? && s.procs[i].name !in s.dir.names
    ensures var a := Steps(i); Step(Step(s, a), a) == OpensAt(s, i) && Step(Step(Step(s, a), a), a) == WritesAt(s, i)
  {
    var a := Steps(i);
    var t := s.(procs := s.procs[i := s.procs[i].(pc := Opening)]);
    assert Step(s, a) == t;
    var u := OpensAt(s, i);
    assert t.procs[i := u.procs[i]] == u.procs;
    assert Step(t, a) == u;
    var v := WritesAt(s, i);
    assert u.procs[i := v.procs[i]] == v.procs;
    assert (s.dir.inodes + [Partial])[|s.dir.inodes| := Complete(s.procs[i].value)] == v.dir.inodes;
  }

  /** Where a crashed run left the name behind, its first taker collides and frees it; another taker then finds it free. */
  lemma Freed(s: System, n: Name, takers: seq<nat>) returns (es: seq<Event>, rest: seq<nat>)
    requires Initial(s) && s.dir.final.None? && Indexed(s, n, takers) && takers != []
    ensures AllSmooth(es) && Waiting(Run(s, es), n, rest)
    ensures |rest| == |takers| - if n in s.dir.names then 1 else 0
  {
    if n in s.dir.names {
      var a := Steps(takers[0]);
      es, rest := [a, a, a], takers[1..];
      RunThree(s, a, a, a);
      Collides(s, takers[0]);
      hide Run, Step;
      forall j | 0 <= j < |rest| ensures Run(s, es).procs[rest[j]] == s.procs[rest[j]] { assert takers[0] < takers[j + 1]; }
    } else {
      es, rest := [], takers;
    }
  }

  /** Different takers of one name. */
  ghost predicate Indexed(s: System, n: Name, takers: seq<nat>)
  {
    && (forall j :: 0 <= j < |takers| ==> takers[j] < |s.procs| && s.procs[takers[j]].name == n)
    && (forall j, k :: 0 <= j < k < |takers| ==> takers[j] < takers[k])
  }

  /** Takers of a free name that have not begun. */
  ghost predicate Waiting(s: System, n: Name, takers: seq<nat>)
  {
    && s.dir.final.None? && n !in s.dir.names && Indexed(s, n, takers)
    && (forall j :: 0 <= j < |takers| ==> s.procs[takers[j]].pc == Checking)
  }

  /** Three takers of a free name: the second makes room for the third, whose unfinished file the first links. */
  lemma ThreePublishPartial(s: System, n: Name, takers: seq<nat>) returns (es: seq<Event>)
    requires Waiting(s, n, takers) && |takers| >= 3
    ensures PartlyPublished(Run(s, es))
  {
    var a, b, c := Steps(takers[0]), Steps(takers[1]), Steps(takers[2]);
    assert takers[0] < takers[1] < takers[2];
    assert s.procs[takers[0]].name == s.procs[takers[1]].name == s.procs[takers[2]].name == n;
    assert s.procs[takers[0]].pc == s.procs[takers[1]].pc == s.procs[takers[2]].pc == Checking;
    var s1 := WritesAt(s, takers[0]);
    var s2 := Ends(s1, takers[1]);
    var s3 := OpensAt(s2, takers[2]);
    es := [a, a, a] + [b, b, b] + [c, c, a];
    OpensAndWrites(s, takers[0]);
    Collides(s1, takers[1]);
    OpensAndWrites(s2, takers[2]);
    RunThree(s, a, a, a);
    RunThree(s1, b, b, b);
    RunThree(s2, c, c, a);
    RunAppend(s, [a, a, a], [b, b, b]);
    RunAppend(s, [a, a, a] + [b, b, b], [c, c, a]);
    assert s3.procs[takers[0]].pc == Linking && s3.dir.names[n] == |s2.dir.inodes|;
    assert PartlyPublished(Step(s3, a));
  }

  /** Two takers of a free name: the second removes the candidate that the first has just opened. */
  lemma TwoLoseCandidate(s: System, n: Name, takers: seq<nat>) returns (es: seq<Event>, e: Event)
    requires Waiting(s, n, takers) && |takers| >= 2
    ensures Run(s, es).dir.final.None? && LosesCandidate(Run(s, es), e, takers[0])
  {
    var a, b := Steps(takers[0]), Steps(takers[1]);
    assert takers[0] < takers[1] && s.procs[takers[0]].name == s.procs[takers[1]].name == n;
    assert s.procs[takers[0]].pc == s.procs[takers[1]].pc == Checking;
    es, e := [a, a, a] + [b, b], b;
    var s1 := WritesAt(s, takers[0]);
    OpensAndWrites(s, takers[0]);
    Collides(s1, takers[1]);
    RunThree(s, a, a, a);
    RunAppend(s, [a, a, a], [b, b]);
    RunTwo(s1, b, b);
    assert Step(Step(Step(s1, b), b), b) == Ends(s1, takers[1]);
  }

  // -- exactly --------------------------------------------------------------------------------------------------

  /**
   * No run ever publishes an unfinished file, exactly when the file was there before, or no name has more than two
   * takers, or three where a crashed run has left a candidate of that name.
   */
  lemma NeverPartialExactly(s: System)
    requires Initial(s)
    ensures (forall es :: !PartlyPublished(Run(s, es))) <==> (s.dir.final.Some? || AtMostTakers(s, 2))
  {
    if s.dir.final.Some? || AtMostTakers(s, 2) {
      forall es ensures !PartlyPublished(Run(s, es)) { NeverPartialNorReplaced(s, es, []); }
    } else {
      var n :| Takers(s.procs, n) > if n in s.dir.names then 3 else 2;
      var takers := SomeTakers(s.procs, n, if n in s.dir.names then 4 else 3);
      var first, rest := Freed(s, n, takers);
      var es := ThreePublishPartial(Run(s, first), n, rest);
      RunAppend(s, first, es);
      assert PartlyPublished(Run(s, first + es));
    }
  }

  /**
   * A candidate that another process has yet to publish is only ever removed once the file is there, exactly when it
   * was there before, or no name has more than one taker, or two where a crashed run has left a candidate of it.
   */
  lemma CandidatesKeptExactly(s: System)
    requires Initial(s)
    ensures (forall es, e, i: nat :: LosesCandidate(Run(s, es), e, i) ==> Run(s, es).dir.final.Some?)
            <==> (s.dir.final.Some? || AtMostTakers(s, 1))
  {
    if s.dir.final.Some? || AtMostTakers(s, 1) {
      InitialUncrowded(s, 1);
      forall es, e, i: nat | LosesCandidate(Run(s, es), e, i) ensures Run(s, es).dir.final.Some? {
        RunUncrowded(s, es, s.dir.names.Keys, 1);
        KeptWhileUncrowded(Run(s, es), e, i, s.dir.names.Keys);
      }
    } else {
      var n :| Takers(s.procs, n) > if n in s.dir.names then 2 else 1;
      var takers := SomeTakers(s.procs, n, if n in s.dir.names then 3 else 2);
      var first, rest := Freed(s, n, takers);
      var es, e := TwoLoseCandidate(Run(s, first), n, rest);
      RunAppend(s, first, es);
      assert LosesCandidate(Run(s, first + es), e, rest[0]);
    }
  }

  /**
   * Where nothing but crashes goes wrong, a failed link always finds the winner, so nobody ever throws: exactly when
   * the file was there before, or every candidate name is a new one.
   */
  lemma NobodyThrowsExactly(s: System)
    requires Initial(s)
    ensures (forall es :: AllSmooth(es) ==> NoneThrew(Run(s, es))) <==> (s.dir.final.Some? || NamesApart(s))
  {
    if s.dir.final.Some? {
      forall es | AllSmooth(es) ensures NoneThrew(Run(s, es)) { ServedStays(s, es); }
    } else if NamesApart(s) {
      forall n: Name ensures Takers(s.procs, n) <= 1 { ApartTakers(s.procs, n); }
      InitialUncrowded(s, 1);
      forall es | AllSmooth(es) ensures NoneThrew(Run(s, es)) { SmoothRun(s, es, s.dir.names.Keys); }
    } else {
      var es := CollidingRun(s);
      assert AllSmooth(es) && !NoneThrew(Run(s, es));
    }
  }

  /** A process whose name is taken collides and throws. */
  lemma CollidingRun(s: System) returns (es: seq<Event>)
    requires Initial(s) && s.dir.final.None? && !NamesApart(s)
    ensures AllSmooth(es) && !NoneThrew(Run(s, es))
  {
    if i: nat :| i < |s.procs| && s.procs[i].name in s.dir.names {
      var a := Steps(i);
      es := [a, a, a];
      RunThree(s, a, a, a);
      Collides(s, i);
      hide Run, Step;
      assert Run(s, es).procs[i].pc == Ended(Threw);
    } else {
      var i, k :| 0 <= i < k < |s.procs| && s.procs[i].name == s.procs[k].name;
      var a, b, t := Steps(i), Steps(k), WritesAt(s, i);
      es := [a, a, a] + [b, b, b];
      RunThree(s, a, a, a);
      RunThree(t, b, b, b);
      RunAppend(s, [a, a, a], [b, b, b]);
      OpensAndWrites(s, i);
      Collides(t, k);
      hide Run, Step;
      assert Run(s, es).procs[k].pc == Ended(Threw);
    }
  }
}
