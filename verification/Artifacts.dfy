/** Processes racing to publish one file (runtime/src/local-identity.js), step by step over a shared directory. */
module Artifacts {
  import opened Common

  type Name = nat
  type Value = int

  /** What a file holds; a validating read of a partial file throws. */
  datatype Content = Partial | Complete(value: Value)

  /** One directory: the published name, the candidates' names, and the files they link to. */
  datatype Directory = Directory(final: Option<nat>, names: map<Name, nat>, inodes: seq<Content>)

  datatype Outcome = Got(value: Value, created: bool) | Threw

  /** Where a process is in `loadOrCreatePersistentArtifact`; `temporary` says whether its cleanup still has to run. */
  datatype Pc =
    | Checking
    | LoadingExisting
    | Opening
    | Writing
    | Linking
    | LoadingWinner
    | LoadingOwn
    | Listing(found: Outcome, temporary: bool)
    | Cleaning(rest: set<Name>, result: Outcome, own: bool)
    | Removing(pending: Outcome)
    | Ended(outcome: Outcome)
    | Crashed

  /** A process with the candidate name and the value it made up, and the file it opened. */
  datatype Process = Process(name: Name, value: Value, inode: Option<nat>, pc: Pc)

  datatype System = System(dir: Directory, procs: seq<Process>)

  /** How a step of a process goes: as it should, refused where the code shrugs it off, failing, or crashing. */
  datatype Act = Go | Refused | Fails | Crashes

  /** A step of one process; `pick` is the candidate that a cleanup turns to next. */
  datatype Event = Event(process: nat, act: Act, pick: Name)

  /** A throw inside the guarded part still removes the candidate. */
  function Throwing(pc: Pc): Pc
  {
    match pc
    case Checking => Ended(Threw)
    case LoadingExisting => Ended(Threw)
    case Opening => Removing(Threw)
    case Writing => Removing(Threw)
    case Linking => Removing(Threw)
    case LoadingWinner => Removing(Threw)
    case LoadingOwn => Removing(Threw)
    case _ => pc
  }

  /** What a validating read of the published file does to the process. */
  function Read(dir: Directory, pc: Pc, created: bool, temporary: bool): Pc
  {
    if dir.final.None? || dir.final.value >= |dir.inodes| || dir.inodes[dir.final.value].Partial? then Throwing(pc)
    else Listing(Got(dir.inodes[dir.final.value].value, created), temporary)
  }

  function Finished(result: Outcome, temporary: bool): Pc { if temporary then Removing(result) else Ended(result) }

  /** The file that a process opens, with every write to it so far. */
  function Opened(dir: Directory, name: Name): Directory
  {
    dir.(names := dir.names[name := |dir.inodes|], inodes := dir.inodes + [Partial])
  }

  function Proceed(dir: Directory, p: Process, pick: Name): (Directory, Process)
  {
    match p.pc
    case Checking => (dir, p.(pc := if dir.final.Some? then LoadingExisting else Opening))
    case LoadingExisting => (dir, p.(pc := Read(dir, p.pc, false, false)))
    case Opening =>
      if p.name in dir.names then (dir, p.(pc := Removing(Threw)))
      else (Opened(dir, p.name), p.(pc := Writing, inode := Some(|dir.inodes|)))
    case Writing =>
      if p.inode.Some? && p.inode.value < |dir.inodes|
      then (dir.(inodes := dir.inodes[p.inode.value := Complete(p.value)]), p.(pc := Linking))
      else (dir, p.(pc := Linking))
    case Linking =>
      if p.name !in dir.names || dir.final.Some? then (dir, p.(pc := LoadingWinner))
      else (dir.(final := Some(dir.names[p.name])), p.(pc := LoadingOwn))
    case LoadingWinner => (dir, p.(pc := Read(dir, p.pc, false, true)))
    case LoadingOwn => (dir, p.(pc := Read(dir, p.pc, true, true)))
    case Listing(found, temporary) => (dir, p.(pc := Cleaning(dir.names.Keys, found, temporary)))
    case Cleaning(rest, result, own) =>
      if rest == {} then (dir, p.(pc := Finished(result, own)))
      else if pick !in rest then (dir, p)
      else (dir.(names := dir.names - {pick}), p.(pc := Cleaning(rest - {pick}, result, own)))
    case Removing(pending) => (dir.(names := dir.names - {p.name}), p.(pc := Ended(pending)))
    case Ended(_) => (dir, p)
    case Crashed => (dir, p)
  }

  /** A refusal that the code tolerates: a cleanup that cannot run, or a link that reports EPERM. */
  function Refuse(p: Process, pick: Name): Process
  {
    match p.pc
    case Linking => p.(pc := LoadingWinner)
    case Listing(found, temporary) => p.(pc := Finished(found, temporary))
    case Cleaning(rest, result, own) =>
      if rest == {} then p.(pc := Finished(result, own)) else p.(pc := Cleaning(rest - {pick}, result, own))
    case Removing(pending) => p.(pc := Ended(pending))
    case _ => p
  }

  function Step(s: System, e: Event): System
  {
    if e.process >= |s.procs| then s
    else
      var p := s.procs[e.process];
      match e.act
      case Go => var (dir, q) := Proceed(s.dir, p, e.pick); System(dir, s.procs[e.process := q])
      case Refused => s.(procs := s.procs[e.process := Refuse(p, e.pick)])
      case Fails => s.(procs := s.procs[e.process := p.(pc := Throwing(p.pc))])
      case Crashes => s.(procs := s.procs[e.process := if p.pc.Ended? then p else p.(pc := Crashed)])
  }

  function Run(s: System, es: seq<Event>): System
    decreases |es|
  {
    if es == [] then s else Run(Step(s, es[0]), es[1..])
  }

  /** Nothing has run yet; the file may be there already, whole, and crashed runs may have left candidates. */
  ghost predicate Initial(s: System)
  {
    && (s.dir.final.Some? ==> s.dir.final.value < |s.dir.inodes| && s.dir.inodes[s.dir.final.value].Complete?)
    && (forall n :: n in s.dir.names ==> s.dir.names[n] < |s.dir.inodes|)
    && (forall i :: 0 <= i < |s.procs| ==> s.procs[i].pc == Checking && s.procs[i].inode.None?)
  }

  /** Every process made up a candidate name of its own. */
  ghost predicate NamesApart(s: System)
  {
    && (forall i, k :: 0 <= i < k < |s.procs| ==> s.procs[i].name != s.procs[k].name)
    && (forall i :: 0 <= i < |s.procs| ==> s.procs[i].name !in s.dir.names)
  }

  // -- what a run can be asked about -----------------------------------------------------------

  /** The outcome a process carries to its end. */
  function Given(pc: Pc): Option<Outcome>
  {
    match pc
    case Listing(found, _) => Some(found)
    case Cleaning(_, result, _) => Some(result)
    case Removing(pending) => Some(pending)
    case Ended(outcome) => Some(outcome)
    case _ => None
  }

  /** The process has opened its candidate and has yet to publish it. */
  predicate Publishing(pc: Pc) { pc.Writing? || pc.Linking? }

  predicate Returned(s: System, i: nat) { i < |s.procs| && s.procs[i].pc.Ended? && s.procs[i].pc.outcome.Got? }

  function ReturnOf(s: System, i: nat): Outcome
    requires Returned(s, i)
  {
    s.procs[i].pc.outcome
  }

  /** The published file is unfinished. */
  predicate PartlyPublished(s: System)
  {
    s.dir.final.Some? && s.dir.final.value < |s.dir.inodes| && s.dir.inodes[s.dir.final.value].Partial?
  }

  /** How many processes made up this candidate name. */
  function Takers(procs: seq<Process>, name: Name): nat
  {
    if procs == [] then 0
    else Takers(procs[..|procs| - 1], name) + if procs[|procs| - 1].name == name then 1 else 0
  }

  /** No name has more takers than this, or than one more where a crashed run has left a candidate of that name. */
  ghost predicate AtMostTakers(s: System, most: nat)
  {
    forall n :: Takers(s.procs, n) <= if n in s.dir.names then most + 1 else most
  }

  /** Steps that go as they should, and crashes. */
  ghost predicate AllSmooth(es: seq<Event>) { forall e :: e in es ==> e.act == Go || e.act == Crashes }

  ghost predicate NoneThrew(s: System) { forall i :: 0 <= i < |s.procs| ==> s.procs[i].pc != Ended(Threw) }

  // -- runs in parts ---------------------------------------------------------------------------

  lemma RunTwo(s: System, e: Event, f: Event)
    ensures Run(s, [e, f]) == Step(Step(s, e), f)
  {
    hide Step;
    var t := Step(s, e);
    assert Run(t, [f]) == Step(t, f) by { assert [f][1..] == []; }
    assert [e, f][1..] == [f];
  }

  lemma RunThree(s: System, e: Event, f: Event, g: Event)
    ensures Run(s, [e, f, g]) == Step(Step(Step(s, e), f), g)
  {
    hide Step;
    var t := Step(Step(s, e), f);
    assert Run(t, [g]) == Step(t, g) by { assert [g][1..] == []; }
    assert Run(Step(s, e), [f, g]) == Run(t, [g]) by { assert [f, g][1..] == [g]; }
    assert [e, f, g][1..] == [f, g];
  }

  lemma {:induction false} RunAppend(s: System, a: seq<Event>, b: seq<Event>)
    ensures Run(s, a + b) == Run(Run(s, a), b)
    decreases |a|
  {
    hide Step;
    if a == [] {
      assert a + b == b;
    } else {
      assert (a + b)[1..] == a[1..] + b;
      RunAppend(Step(s, a[0]), a[1..], b);
    }
  }
}
