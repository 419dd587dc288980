/** What every run of the racing processes keeps (runtime/src/local-identity.js), whatever their candidate names are. */
module ArtifactRuns {
  import opened Common
  import opened Artifacts

  // -- whatever the names are ------------------------------------------------------------------

  predicate Creates(pc: Pc)
  {
    pc.LoadingOwn? || (Given(pc).Some? && Given(pc).value.Got? && Given(pc).value.created)
  }

  /** A process knows its own file, which is unfinished while it writes it, and carries only the published value. */
  ghost predicate Sound(dir: Directory, p: Process)
  {
    && (Publishing(p.pc) ==> p.inode.Some?)
    && (p.inode.Some? ==> p.inode.value < |dir.inodes| && !p.pc.Checking? && !p.pc.Opening?)
    && (p.pc.Writing? ==> dir.inodes[p.inode.value] == Partial)
    && (p.pc.Linking? ==> dir.inodes[p.inode.value] == Complete(p.value))
    && (p.pc.LoadingExisting? || p.pc.LoadingOwn? ==> dir.final.Some?)
    && (p.pc.Listing? || p.pc.Cleaning? ==> Given(p.pc).value.Got?)
    && (Given(p.pc).Some? && Given(p.pc).value.Got? ==>
          && dir.final.Some? && dir.final.value < |dir.inodes|
          && dir.inodes[dir.final.value] == Complete(Given(p.pc).value.value))
  }

  ghost predicate AllSound(dir: Directory, procs: seq<Process>)
  {
    forall i :: 0 <= i < |procs| ==> Sound(dir, procs[i])
  }

  /** Files are opened once, and at most one process goes on from its own link. */
  ghost predicate FilesApart(procs: seq<Process>)
  {
    && (forall i, k :: 0 <= i < k < |procs| && procs[i].inode.Some? ==> procs[i].inode != procs[k].inode)
    && (forall i, k :: 0 <= i < k < |procs| ==> !Creates(procs[i].pc) || !Creates(procs[k].pc))
  }

  /** No name leads beyond the files that were opened. */
  ghost predicate Linked(dir: Directory)
  {
    && (dir.final.Some? ==> dir.final.value < |dir.inodes|)
    && (forall n :: n in dir.names ==> dir.names[n] < |dir.inodes|)
  }

  ghost predicate Inv(s: System) { Linked(s.dir) && FilesApart(s.procs) && AllSound(s.dir, s.procs) }

  /** A directory in which what was published or finished stays so. */
  ghost predicate Later(dir: Directory, next: Directory)
  {
    && |dir.inodes| <= |next.inodes|
    && (dir.final.Some? ==> next.final == dir.final)
    && (forall k :: 0 <= k < |dir.inodes| && dir.inodes[k].Complete? ==> next.inodes[k] == dir.inodes[k])
  }

  lemma WritingKeeps(dir: Directory, inode: nat, value: Value, p: Process)
    requires Sound(dir, p) && inode < |dir.inodes| && p.inode != Some(inode) && dir.inodes[inode] == Partial
    ensures Sound(dir.(inodes := dir.inodes[inode := Complete(value)]), p)
  {
  }

  lemma OtherKeeps(dir: Directory, p: Process, pick: Name, other: Process)
    requires Linked(dir) && Sound(dir, p) && Sound(dir, other) && (p.inode.Some? ==> p.inode != other.inode)
    ensures Sound(Proceed(dir, p, pick).0, other)
  {
    if p.pc.Writing? { WritingKeeps(dir, p.inode.value, p.value, other); }
  }

  lemma OwnKeeps(dir: Directory, p: Process, pick: Name)
    requires Linked(dir) && Sound(dir, p)
    ensures var (next, q) := Proceed(dir, p, pick);
      && Linked(next) && Sound(next, q) && q.name == p.name && q.value == p.value && Later(dir, next)
      && (q.inode == p.inode || (p.inode.None? && q.inode == Some(|dir.inodes|)))
      && (Creates(q.pc) ==> Creates(p.pc) || dir.final.None?)
  {
  }

  lemma StoppingKeeps(dir: Directory, p: Process, e: Event)
    requires Sound(dir, p)
    ensures Sound(dir, Refuse(p, e.pick)) && Sound(dir, p.(pc := Throwing(p.pc)))
    ensures Sound(dir, if p.pc.Ended? then p else p.(pc := Crashed))
    ensures Creates(Refuse(p, e.pick).pc) ==> Creates(p.pc)
    ensures Creates(Throwing(p.pc)) ==> Creates(p.pc)
  {
  }

  lemma StepSound(s: System, e: Event)
    requires Inv(s)
    ensures Linked(Step(s, e).dir) && AllSound(Step(s, e).dir, Step(s, e).procs) && Later(s.dir, Step(s, e).dir)
  {
    if e.process < |s.procs| {
      var p, t := s.procs[e.process], Step(s, e);
      assert Sound(s.dir, p);
      OwnKeeps(s.dir, p, e.pick);
      StoppingKeeps(s.dir, p, e);
      hide Proceed, Sound, Refuse, Throwing;
      forall i | 0 <= i < |t.procs| ensures Sound(t.dir, t.procs[i]) {
        if i != e.process {
          assert Sound(s.dir, s.procs[i]);
          OtherKeeps(s.dir, p, e.pick, s.procs[i]);
        }
      }
    }
  }

  lemma StepApart(s: System, e: Event)
    requires Inv(s)
    ensures FilesApart(Step(s, e).procs)
  {
    if e.process < |s.procs| {
      var p, t := s.procs[e.process], Step(s, e);
      assert Sound(s.dir, p);
      OwnKeeps(s.dir, p, e.pick);
      StoppingKeeps(s.dir, p, e);
      forall i | 0 <= i < |s.procs|
        ensures s.procs[i].inode != Some(|s.dir.inodes|) && (s.dir.final.None? ==> !Creates(s.procs[i].pc))
      {
        assert Sound(s.dir, s.procs[i]);
      }
      var q := t.procs[e.process];
      assert q.inode == p.inode || q.inode == Some(|s.dir.inodes|);
      assert Creates(q.pc) ==> Creates(p.pc) || s.dir.final.None?;
      ApartUpdate(s.procs, e.process, q);
    }
  }

  lemma ApartUpdate(procs: seq<Process>, i: nat, q: Process)
    requires FilesApart(procs) && i < |procs|
    requires q.inode == procs[i].inode || forall k :: 0 <= k < |procs| ==> procs[k].inode != q.inode
    requires Creates(q.pc) ==> Creates(procs[i].pc) || forall k :: 0 <= k < |procs| ==> !Creates(procs[k].pc)
    ensures FilesApart(procs[i := q])
  {
    hide Creates;
  }

  lemma {:induction false} RunKeeps(s: System, es: seq<Event>)
    requires Inv(s)
    ensures Inv(Run(s, es)) && Later(s.dir, Run(s, es).dir)
    decreases |es|
  {
    if es != [] {
      StepSound(s, es[0]);
      StepApart(s, es[0]);
      hide Step, Sound, FilesApart;
      RunKeeps(Step(s, es[0]), es[1..]);
    }
  }

  lemma InitialKeeps(s: System)
    requires Initial(s)
    ensures Inv(s)
  {
  }

  /** Once published the file is never replaced, and once finished its content never changes, whatever the names are. */
  lemma NeverReplaced(s: System, es: seq<Event>, more: seq<Event>)
    requires Initial(s) && Run(s, es).dir.final.Some?
    ensures var t, u := Run(s, es), Run(Run(s, es), more);
      && u.dir.final == t.dir.final && t.dir.final.value < |t.dir.inodes| <= |u.dir.inodes|
      && (!PartlyPublished(t) ==> u.dir.inodes[t.dir.final.value] == t.dir.inodes[t.dir.final.value])
  {
    InitialKeeps(s);
    RunKeeps(s, es);
    RunKeeps(Run(s, es), more);
  }

  /** Every process that returns gets the published value, whatever the names are. */
  lemma ReturnsAgree(s: System, es: seq<Event>, i: nat)
    requires Initial(s) && Returned(Run(s, es), i)
    ensures var t := Run(s, es);
      && t.dir.final.Some? && t.dir.final.value < |t.dir.inodes|
      && t.dir.inodes[t.dir.final.value] == Complete(ReturnOf(t, i).value)
  {
    InitialKeeps(s);
    RunKeeps(s, es);
    assert Sound(Run(s, es).dir, Run(s, es).procs[i]);
  }

  /** At most one process reports that it created the file, whatever the names are. */
  lemma AtMostOneCreates(s: System, es: seq<Event>, i: nat, k: nat)
    requires Initial(s)
    requires Returned(Run(s, es), i) && ReturnOf(Run(s, es), i).created
    requires Returned(Run(s, es), k) && ReturnOf(Run(s, es), k).created
    ensures i == k
  {
    InitialKeeps(s);
    RunKeeps(s, es);
    assert Creates(Run(s, es).procs[i].pc) && Creates(Run(s, es).procs[k].pc);
  }

  // -- counting processes ---------------------------------------------------------------------------

  function Total(procs: seq<Process>, f: Process -> int): int
  {
    if procs == [] then 0 else Total(procs[..|procs| - 1], f) + f(procs[|procs| - 1])
  }

  lemma {:induction false} TotalUpdate(procs: seq<Process>, i: nat, q: Process, f: Process -> int)
    requires i < |procs|
    ensures Total(procs[i := q], f) == Total(procs, f) - f(procs[i]) + f(q)
  {
    var next, n := procs[i := q], |procs| - 1;
    if i < n {
      assert next[..n] == procs[..n][i := q];
      TotalUpdate(procs[..n], i, q, f);
    } else {
      assert next[..n] == procs[..n];
    }
  }

  lemma {:induction false} TotalBelow(procs: seq<Process>, f: Process -> int, g: Process -> int)
    requires forall i :: 0 <= i < |procs| ==> f(procs[i]) <= g(procs[i])
    ensures Total(procs, f) <= Total(procs, g)
  {
    if procs != [] {
      var before := procs[..|procs| - 1];
      assert forall i :: 0 <= i < |before| ==> before[i] == procs[i];
      TotalBelow(before, f, g);
    }
  }

  lemma {:induction false} TotalSum(procs: seq<Process>, f: Process -> int, g: Process -> int, h: Process -> int)
    requires forall i :: 0 <= i < |procs| ==> f(procs[i]) == g(procs[i]) + h(procs[i])
    ensures Total(procs, f) == Total(procs, g) + Total(procs, h)
  {
    if procs != [] {
      var before := procs[..|procs| - 1];
      assert forall i :: 0 <= i < |before| ==> before[i] == procs[i];
      TotalSum(before, f, g, h);
    }
  }

  lemma {:induction false} TotalOf(procs: seq<Process>, f: Process -> int, members: set<nat>)
    requires forall i :: 0 <= i < |procs| ==> f(procs[i]) >= 0
    requires forall i :: i in members ==> i < |procs| && f(procs[i]) >= 1
    ensures Total(procs, f) >= |members|
    decreases |procs|
  {
    if procs == [] {
      assert members == {};
    } else {
      var before, last := procs[..|procs| - 1], |procs| - 1;
      assert forall i :: 0 <= i < |before| ==> before[i] == procs[i];
      TotalOf(before, f, members - {last});
      assert members == members - {last} || members == members - {last} + {last};
    }
  }

  function Takes(n: Name): Process -> int { (p: Process) => if p.name == n then 1 else 0 }

  function Opens(n: Name): Process -> int { (p: Process) => if p.name == n && p.inode.Some? then 1 else 0 }

  predicate IsSpent(p: Process, n: Name, owner: Option<nat>)
  {
    p.name == n && p.pc.Ended? && (owner.None? || p.inode != owner)
  }

  /** The takers of a name that have ended and whose file the name does not lead to. */
  function Spent(n: Name, owner: Option<nat>): Process -> int { (p: Process) => if IsSpent(p, n, owner) then 1 else 0 }

  function Unspent(n: Name, owner: Option<nat>): Process -> int
  {
    (p: Process) => if p.name == n && !IsSpent(p, n, owner) then 1 else 0
  }

  lemma {:induction false} TakersTotal(procs: seq<Process>, n: Name)
    ensures Takers(procs, n) == Total(procs, Takes(n))
  {
    if procs != [] { TakersTotal(procs[..|procs| - 1], n); }
  }

  // -- until the file is published ---------------------------------------------------------------------

  function Owner(dir: Directory, n: Name): Option<nat> { if n in dir.names then Some(dir.names[n]) else None }

  function Left(listed: set<Name>, n: Name): int { if n in listed then 1 else 0 }

  /** A name is opened anew only after it was removed, and each removal spends a process of that name. */
  ghost predicate Balanced(s: System, listed: set<Name>, n: Name)
  {
    Total(s.procs, Opens(n)) + Left(listed, n)
    <= Total(s.procs, Spent(n, Owner(s.dir, n))) + if n in s.dir.names then 1 else 0
  }

  ghost predicate OwnedBy(s: System, n: Name, i: int)
  {
    0 <= i < |s.procs| && s.procs[i].name == n && s.procs[i].inode.Some? && s.procs[i].inode == Owner(s.dir, n)
  }

  /** A candidate is the file of the last taker that opened it, or one that was there before any did. */
  ghost predicate Named(s: System, listed: set<Name>, n: Name)
  {
    n in s.dir.names ==>
      (exists i :: OwnedBy(s, n, i))
      || (n in listed && forall i :: 0 <= i < |s.procs| && s.procs[i].name == n ==> s.procs[i].inode.None?)
  }

  ghost predicate Fits(s: System, listed: set<Name>, most: nat, n: Name)
  {
    Total(s.procs, Takes(n)) <= most + Left(listed, n)
  }

  ghost predicate Pending(s: System, listed: set<Name>, most: nat)
  {
    forall n: Name :: Balanced(s, listed, n) && Named(s, listed, n) && Fits(s, listed, most, n)
  }

  /** As long as nothing is published, a step that keeps the names changes only who is spent. */
  lemma QuietBalance(s: System, listed: set<Name>, n: Name, i: nat, q: Process)
    requires Balanced(s, listed, n) && i < |s.procs| && q.name == s.procs[i].name && q.inode == s.procs[i].inode
    requires s.procs[i].pc.Ended? ==> q.pc.Ended?
    ensures Balanced(s.(procs := s.procs[i := q]), listed, n)
  {
    TotalUpdate(s.procs, i, q, Opens(n));
    TotalUpdate(s.procs, i, q, Spent(n, Owner(s.dir, n)));
  }

  lemma OpeningBalance(s: System, listed: set<Name>, n: Name, i: nat)
    requires Balanced(s, listed, n) && i < |s.procs| && s.procs[i].pc.Opening? && s.procs[i].name !in s.dir.names
    requires forall k :: 0 <= k < |s.procs| ==> s.procs[k].inode != Some(|s.dir.inodes|)
    requires s.procs[i].inode.None?
    ensures var q := s.procs[i].(pc := Writing, inode := Some(|s.dir.inodes|));
      Balanced(System(Opened(s.dir, s.procs[i].name), s.procs[i := q]), listed, n)
  {
    var q := s.procs[i].(pc := Writing, inode := Some(|s.dir.inodes|));
    var owner := Owner(Opened(s.dir, s.procs[i].name), n);
    TotalUpdate(s.procs, i, q, Opens(n));
    TotalUpdate(s.procs, i, q, Spent(n, owner));
    TotalBelow(s.procs, Spent(n, Owner(s.dir, n)), Spent(n, owner));
  }

  lemma RemovingBalance(s: System, listed: set<Name>, n: Name, i: nat, q: Process)
    requires Balanced(s, listed, n) && i < |s.procs| && q.name == s.procs[i].name && q.inode == s.procs[i].inode
    requires !s.procs[i].pc.Ended? && q.pc.Ended?
    ensures Balanced(System(s.dir.(names := s.dir.names - {q.name}), s.procs[i := q]), listed, n)
  {
    var owner := Owner(s.dir.(names := s.dir.names - {q.name}), n);
    TotalUpdate(s.procs, i, q, Opens(n));
    TotalUpdate(s.procs, i, q, Spent(n, owner));
    TotalBelow(s.procs, Spent(n, Owner(s.dir, n)), Spent(n, owner));
  }

  lemma StepBalanced(s: System, e: Event, listed: set<Name>, n: Name)
    requires Inv(s) && s.dir.final.None? && Step(s, e).dir.final.None? && Balanced(s, listed, n)
    ensures Balanced(Step(s, e), listed, n)
  {
    if e.process < |s.procs| {
      var p, t := s.procs[e.process], Step(s, e);
      assert Sound(s.dir, p);
      forall k | 0 <= k < |s.procs| ensures s.procs[k].inode != Some(|s.dir.inodes|) { assert Sound(s.dir, s.procs[k]); }
      hide Balanced;
      var q := t.procs[e.process];
      if e.act == Go && p.pc.Opening? && p.name !in s.dir.names {
        OpeningBalance(s, listed, n, e.process);
      } else if e.act == Go && p.pc.Removing? {
        RemovingBalance(s, listed, n, e.process, q);
      } else {
        QuietBalance(s, listed, n, e.process, q);
        SameNames(s, t, listed, n);
      }
    }
  }

  lemma SameNames(s: System, t: System, listed: set<Name>, n: Name)
    requires s.dir.names == t.dir.names && Balanced(s.(procs := t.procs), listed, n)
    ensures Balanced(t, listed, n)
  {
  }

  lemma StepNamed(s: System, e: Event, listed: set<Name>, n: Name)
    requires Inv(s) && s.dir.final.None? && Step(s, e).dir.final.None? && Named(s, listed, n)
    ensures Named(Step(s, e), listed, n)
  {
    if e.process < |s.procs| && n in Step(s, e).dir.names {
      var p, t := s.procs[e.process], Step(s, e);
      assert Sound(s.dir, p);
      if e.act == Go && p.pc.Opening? && p.name == n && p.name !in s.dir.names {
        assert OwnedBy(t, n, e.process);
      } else if exists i :: OwnedBy(s, n, i) {
        var i :| OwnedBy(s, n, i);
        assert OwnedBy(t, n, i);
      }
    }
  }

  lemma StepFits(s: System, e: Event, listed: set<Name>, most: nat, n: Name)
    requires Fits(s, listed, most, n)
    ensures Fits(Step(s, e), listed, most, n)
  {
    if e.process < |s.procs| { TotalUpdate(s.procs, e.process, Step(s, e).procs[e.process], Takes(n)); }
  }

  lemma StepPending(s: System, e: Event, listed: set<Name>, most: nat)
    requires Inv(s) && s.dir.final.None? && Step(s, e).dir.final.None? && Pending(s, listed, most)
    ensures Pending(Step(s, e), listed, most)
  {
    hide Inv, Balanced, Named, Fits, Step;
    forall n: Name ensures Balanced(Step(s, e), listed, n) && Named(Step(s, e), listed, n) && Fits(Step(s, e), listed, most, n)
    {
      StepBalanced(s, e, listed, n);
      StepNamed(s, e, listed, n);
      StepFits(s, e, listed, most, n);
    }
  }

  lemma InitialPending(s: System, most: nat)
    requires Initial(s) && AtMostTakers(s, most)
    ensures Pending(s, s.dir.names.Keys, most)
  {
    forall n: Name ensures Balanced(s, s.dir.names.Keys, n) && Fits(s, s.dir.names.Keys, most, n) {
      TakersTotal(s.procs, n);
      TotalBelow(s.procs, Opens(n), Nobody());
      TotalBelow(s.procs, Nobody(), Spent(n, Owner(s.dir, n)));
    }
  }

  function Nobody(): Process -> int { (p: Process) => 0 }

  /** The takers of a name are the spent and the others. */
  lemma TakersSplit(s: System, n: Name)
    ensures Total(s.procs, Takes(n)) == Total(s.procs, Spent(n, Owner(s.dir, n))) + Total(s.procs, Unspent(n, Owner(s.dir, n)))
  {
    TotalSum(s.procs, Takes(n), Spent(n, Owner(s.dir, n)), Unspent(n, Owner(s.dir, n)));
  }

  /** Openers and unspent takers of a name that is in use show how many takers it must have. */
  lemma CrowdedName(s: System, listed: set<Name>, n: Name, openers: set<nat>, unspent: set<nat>)
    requires Balanced(s, listed, n) && n in s.dir.names
    requires forall i :: i in openers ==> i < |s.procs| && s.procs[i].name == n && s.procs[i].inode.Some?
    requires forall i :: i in unspent ==> i < |s.procs| && s.procs[i].name == n && !IsSpent(s.procs[i], n, Owner(s.dir, n))
    ensures Total(s.procs, Takes(n)) >= |openers| + |unspent| + Left(listed, n) - 1
  {
    TotalOf(s.procs, Opens(n), openers);
    TotalOf(s.procs, Unspent(n, Owner(s.dir, n)), unspent);
    TakersSplit(s, n);
  }

  /**
   * With at most two takers of a name, or three of a name that was left behind, a process that is about to publish
   * finds its own file under its candidate name, if it finds any.
   */
  lemma LinksItsOwn(s: System, listed: set<Name>, i: nat)
    requires Inv(s) && s.dir.final.None? && Pending(s, listed, 2)
    requires i < |s.procs| && s.procs[i].pc.Linking? && s.procs[i].name in s.dir.names
    ensures s.procs[i].inode == Some(s.dir.names[s.procs[i].name])
  {
    var n := s.procs[i].name;
    assert Sound(s.dir, s.procs[i]) && Balanced(s, listed, n) && Named(s, listed, n) && Fits(s, listed, 2, n);
    var k: nat :| OwnedBy(s, n, k);
    var both := {i, k};
    assert k != i ==> |both| == 2;
    CrowdedName(s, listed, n, both, both);
  }

  /** With one taker of each name, or two of a name that was left behind, only its taker removes a name in use. */
  lemma OnlyItsTakerRemoves(s: System, listed: set<Name>, i: nat, k: nat)
    requires Inv(s) && s.dir.final.None? && Pending(s, listed, 1)
    requires i < |s.procs| && k < |s.procs| && Publishing(s.procs[i].pc) && s.procs[k].pc.Removing?
    requires s.procs[i].name in s.dir.names && s.procs[i].name == s.procs[k].name
    ensures i == k
  {
    var n := s.procs[i].name;
    assert Sound(s.dir, s.procs[i]) && Balanced(s, listed, n) && Fits(s, listed, 1, n);
    var both := {i, k};
    assert k != i ==> |both| == 2;
    CrowdedName(s, listed, n, {i}, both);
  }

  // -- published whole -----------------------------------------------------------------------------------

  /** What is published is finished, and who goes on from its own link published its own file. */
  ghost predicate Whole(s: System)
  {
    && !PartlyPublished(s)
    && forall i :: 0 <= i < |s.procs| && Creates(s.procs[i].pc) ==>
         && s.dir.final.Some? && s.dir.final == s.procs[i].inode && s.dir.final.value < |s.dir.inodes|
         && s.dir.inodes[s.dir.final.value] == Complete(s.procs[i].value)
  }

  /** The whole invariant where names have few takers. */
  ghost predicate Uncrowded(s: System, listed: set<Name>, most: nat)
  {
    Inv(s) && Whole(s) && (s.dir.final.None? ==> Pending(s, listed, most))
  }

  lemma StepWhole(s: System, e: Event, listed: set<Name>)
    requires Inv(s) && Whole(s) && (s.dir.final.None? ==> Pending(s, listed, 2))
    ensures Whole(Step(s, e))
  {
    if e.process < |s.procs| {
      var p := s.procs[e.process];
      if s.dir.final.None? && p.pc.Linking? && p.name in s.dir.names { LinksItsOwn(s, listed, e.process); }
      hide Pending;
      OwnStepWhole(s, e);
    }
  }

  lemma ProceedWhole(s: System, n: nat, pick: Name)
    requires Inv(s) && Whole(s) && n < |s.procs|
    requires var p := s.procs[n];
      s.dir.final.None? && p.pc.Linking? && p.name in s.dir.names ==> p.inode == Some(s.dir.names[p.name])
    ensures var (dir, q) := Proceed(s.dir, s.procs[n], pick); Whole(System(dir, s.procs[n := q]))
  {
    var p := s.procs[n];
    var (dir, q) := Proceed(s.dir, p, pick);
    assert Sound(s.dir, p);
    OwnKeeps(s.dir, p, pick);
    forall i | 0 <= i < |s.procs| ensures s.dir.final.None? ==> !Creates(s.procs[i].pc) { assert Sound(s.dir, s.procs[i]); }
    hide AllSound, FilesApart;
    if dir.final == s.dir.final { hide Proceed; }
  }

  /** A file is never published unfinished by a process whose candidate name leads to its own file. */
  lemma OwnStepWhole(s: System, e: Event)
    requires Inv(s) && Whole(s) && e.process < |s.procs|
    requires var p := s.procs[e.process];
      s.dir.final.None? && p.pc.Linking? && p.name in s.dir.names ==> p.inode == Some(s.dir.names[p.name])
    ensures Whole(Step(s, e))
  {
    var p, t := s.procs[e.process], Step(s, e);
    assert Sound(s.dir, p);
    StoppingKeeps(s.dir, p, e);
    if e.act.Go? {
      OwnKeeps(s.dir, p, e.pick);
      ProceedWhole(s, e.process, e.pick);
    } else {
      hide Refuse;
      assert t.dir == s.dir && forall i :: 0 <= i < |s.procs| && Creates(t.procs[i].pc) ==> Creates(s.procs[i].pc);
      assert forall i :: 0 <= i < |s.procs| ==> t.procs[i].inode == s.procs[i].inode && t.procs[i].value == s.procs[i].value;
    }
  }

  lemma PendingFewer(s: System, listed: set<Name>, most: nat)
    requires Pending(s, listed, most) && most <= 2
    ensures Pending(s, listed, 2)
  {
    forall n: Name ensures Balanced(s, listed, n) && Named(s, listed, n) && Fits(s, listed, 2, n) {
      assert Fits(s, listed, most, n);
    }
  }

  lemma StepUncrowded(s: System, e: Event, listed: set<Name>, most: nat)
    requires Uncrowded(s, listed, most) && most <= 2
    ensures Uncrowded(Step(s, e), listed, most)
  {
    hide Step, Pending, Whole, AllSound, FilesApart;
    if s.dir.final.None? { PendingFewer(s, listed, most); }
    StepSound(s, e);
    StepApart(s, e);
    StepWhole(s, e, listed);
    if s.dir.final.None? && Step(s, e).dir.final.None? { StepPending(s, e, listed, most); }
  }

  lemma {:induction false} RunUncrowded(s: System, es: seq<Event>, listed: set<Name>, most: nat)
    requires Uncrowded(s, listed, most) && most <= 2
    ensures Uncrowded(Run(s, es), listed, most)
    decreases |es|
  {
    if es != [] {
      hide Uncrowded, Step;
      StepUncrowded(s, es[0], listed, most);
      RunUncrowded(Step(s, es[0]), es[1..], listed, most);
    }
  }

  lemma InitialUncrowded(s: System, most: nat)
    requires Initial(s) && (s.dir.final.Some? || AtMostTakers(s, most))
    ensures Uncrowded(s, s.dir.names.Keys, most)
  {
    InitialKeeps(s);
    if s.dir.final.None? { InitialPending(s, most); }
  }
}
