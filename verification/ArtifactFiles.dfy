/** One process publishing on its own: the artifact functions of runtime/src/local-identity.js over a real directory. */
module ArtifactFiles {
  import opened Common
  import opened Artifacts

  predicate Readable(dir: Directory)
  {
    dir.final.Some? && dir.final.value < |dir.inodes| && dir.inodes[dir.final.value].Complete?
  }

  /** What one process finds or makes of a directory that nobody else touches. */
  function Alone(dir: Directory, name: Name, value: Value): (Directory, Outcome)
  {
    if dir.final.Some? then
      if Readable(dir) then (dir.(names := map[]), Got(dir.inodes[dir.final.value].value, false)) else (dir, Threw)
    else if name in dir.names then (dir.(names := dir.names - {name}), Threw)
    else (Directory(Some(|dir.inodes|), map[], dir.inodes + [Complete(value)]), Got(value, true))
  }

  class Folder {
    var final: Option<nat>
    var names: map<Name, nat>
    var inodes: seq<Content>

    ghost function View(): Directory
      reads this
    {
      Directory(final, names, inodes)
    }

    constructor ()
      ensures View() == Directory(None, map[], [])
    {
      final, names, inodes := None, map[], [];
    }

    /** The value of the published file, or nothing where it is missing or does not validate. */
    method LoadExisting() returns (there: bool, value: Option<Value>)
      ensures there == final.Some?
      ensures value == if Readable(View()) then Some(inodes[final.value].value) else None
    {
      there := final.Some?;
      value := None;
      if final.Some? && final.value < |inodes| && inodes[final.value].Complete? {
        value := Some(inodes[final.value].value);
      }
    }

    /** Removes every candidate that it finds listed. */
    method CleanupTemporaries()
      modifies this`names
      ensures View() == old(View()).(names := map[])
    {
      var entries := names.Keys;
      while entries != {}
        invariant entries == names.Keys
        decreases |entries|
      {
        var entry :| entry in entries;
        entries := entries - {entry};
        names := names - {entry};
      }
    }

    /** Writes the candidate, links it to the published name, and removes whatever candidates there are. */
    method LoadOrCreate(name: Name, value: Value) returns (outcome: Outcome)
      modifies this
      ensures (View(), outcome) == Alone(old(View()), name, value)
    {
      var found, existing := LoadExisting();
      if found {
        if existing.None? { return Threw; }
        CleanupTemporaries();
        return Got(existing.value, false);
      }
      if name in names {
        names := names - {name};
        return Threw;
      }
      var inode := |inodes|;
      names, inodes := names[name := inode], inodes + [Partial];
      inodes := inodes[inode := Complete(value)];
      assert inodes == old(inodes) + [Complete(value)];
      final := Some(names[name]);
      found, existing := LoadExisting();
      CleanupTemporaries();
      names := names - {name};
      return Got(existing.value, true);
    }
  }

  // -- the call as a run of the stepwise process -----------------------------------------------------

  function One(dir: Directory, p: Process): System { System(dir, [p]) }

  lemma {:induction false} CleansAll(dir: Directory, p: Process, result: Outcome, own: bool) returns (es: seq<Event>)
    requires p.pc == Cleaning(dir.names.Keys, result, own)
    ensures AllSmooth(es) && Run(One(dir, p), es) == One(dir.(names := map[]), p.(pc := Finished(result, own)))
    decreases |dir.names|
  {
    if dir.names.Keys == {} {
      es := [Event(0, Go, 0)];
      RunOne(One(dir, p), es[0]);
      assert dir.names == map[];
    } else {
      var entry :| entry in dir.names;
      var less := dir.(names := dir.names - {entry});
      var e, q := Event(0, Go, entry), p.(pc := Cleaning(less.names.Keys, result, own));
      assert less.names.Keys == dir.names.Keys - {entry} && |less.names| < |dir.names| by { FewerNames(dir.names, entry); }
      assert Step(One(dir, p), e) == One(less, q);
      var rest := CleansAll(less, q, result, own);
      es := [e] + rest;
      assert es[1..] == rest;
    }
  }

  lemma FewerNames(names: map<Name, nat>, entry: Name)
    requires entry in names
    ensures (names - {entry}).Keys == names.Keys - {entry} && |names - {entry}| < |names|
  {
    var less := names - {entry};
    assert names == less[entry := names[entry]];
  }

  lemma RunOne(s: System, e: Event)
    ensures Run(s, [e]) == Step(s, e)
  {
    assert [e][1..] == [];
  }

  /** The published file is there: it is read, and the candidates are cleaned up. */
  lemma AloneReads(dir: Directory, p: Process) returns (es: seq<Event>)
    requires dir.final.Some? && p.pc == Checking
    ensures var (next, outcome) := Alone(dir, p.name, p.value);
      AllSmooth(es) && Run(One(dir, p), es) == One(next, p.(pc := Ended(outcome)))
  {
    var go := Event(0, Go, 0);
    var read := Step(Step(One(dir, p), go), go);
    if Readable(dir) {
      var found := Got(dir.inodes[dir.final.value].value, false);
      var listed := p.(pc := Cleaning(dir.names.Keys, found, false));
      assert Step(read, go) == One(dir, listed);
      RunThree(One(dir, p), go, go, go);
      var rest := CleansAll(dir, listed, found, false);
      es := [go, go, go] + rest;
      RunAppend(One(dir, p), [go, go, go], rest);
    } else {
      es := [go, go];
      RunTwo(One(dir, p), go, go);
      assert read == One(dir, p.(pc := Ended(Threw)));
    }
  }

  /** The name is taken: the process throws and removes it. */
  lemma AloneCollides(dir: Directory, p: Process)
    requires dir.final.None? && p.pc == Checking && p.name in dir.names
    ensures var go := Event(0, Go, 0);
      Run(One(dir, p), [go, go, go]) == One(dir.(names := dir.names - {p.name}), p.(pc := Ended(Threw)))
  {
    var go := Event(0, Go, 0);
    RunThree(One(dir, p), go, go, go);
    var tried := p.(pc := Opening);
    assert Step(One(dir, p), go) == One(dir, tried);
    assert Step(One(dir, tried), go) == One(dir, p.(pc := Removing(Threw)));
  }

  /** The name is free: the process opens, writes, links, reads its own file and cleans up. */
  lemma AloneCreates(dir: Directory, p: Process) returns (es: seq<Event>)
    requires dir.final.None? && p.pc == Checking && p.inode.None? && p.name !in dir.names
    ensures AllSmooth(es)
    ensures Run(One(dir, p), es) == One(Alone(dir, p.name, p.value).0,
                                        p.(inode := Some(|dir.inodes|), pc := Ended(Got(p.value, true))))
  {
    var go, inode := Event(0, Go, 0), |dir.inodes|;
    var written := Directory(None, dir.names[p.name := inode], dir.inodes + [Complete(p.value)]);
    var linking := p.(pc := Linking, inode := Some(inode));
    WritesAlone(dir, p);
    var there := written.(final := Some(inode));
    var cleaning := linking.(pc := Cleaning(there.names.Keys, Got(p.value, true), true));
    LinksAlone(written, linking, inode);
    var rest := CleansAll(there, cleaning, Got(p.value, true), true);
    var clean := there.(names := map[]);
    var removing := linking.(pc := Removing(Got(p.value, true)));
    es := [go, go, go] + [go, go, go] + (rest + [go]);
    RunThree(One(dir, p), go, go, go);
    RunThree(One(written, linking), go, go, go);
    RunAppend(One(dir, p), [go, go, go], [go, go, go]);
    RunAppend(One(there, cleaning), rest, [go]);
    RunAppend(One(dir, p), [go, go, go] + [go, go, go], rest + [go]);
    RunOne(One(clean, removing), go);
    assert clean.names - {p.name} == map[];
  }

  lemma WritesAlone(dir: Directory, p: Process)
    requires dir.final.None? && p.pc == Checking && p.name !in dir.names
    ensures var go := Event(0, Go, 0);
      Step(Step(Step(One(dir, p), go), go), go)
      == One(Directory(None, dir.names[p.name := |dir.inodes|], dir.inodes + [Complete(p.value)]),
             p.(pc := Linking, inode := Some(|dir.inodes|)))
  {
    var go := Event(0, Go, 0);
    assert Step(One(dir, p), go) == One(dir, p.(pc := Opening));
    assert (dir.inodes + [Partial])[|dir.inodes| := Complete(p.value)] == dir.inodes + [Complete(p.value)];
  }

  lemma LinksAlone(dir: Directory, p: Process, inode: nat)
    requires dir.final.None? && p.pc == Linking && p.name in dir.names && dir.names[p.name] == inode
    requires inode < |dir.inodes| && dir.inodes[inode] == Complete(p.value)
    ensures var go := Event(0, Go, 0);
      Step(Step(Step(One(dir, p), go), go), go)
      == One(dir.(final := Some(inode)), p.(pc := Cleaning(dir.names.Keys, Got(p.value, true), true)))
  {
    var go, there := Event(0, Go, 0), dir.(final := Some(inode));
    assert Step(One(dir, p), go) == One(there, p.(pc := LoadingOwn));
    assert Step(One(there, p.(pc := LoadingOwn)), go) == One(there, p.(pc := Listing(Got(p.value, true), true)));
  }

  /** For every directory, what the object does in one call is a run of the stepwise process when nothing else runs. */
  lemma CallIsARun(dir: Directory, name: Name, value: Value) returns (es: seq<Event>)
    ensures var (next, outcome) := Alone(dir, name, value);
      var t := Run(One(dir, Process(name, value, None, Checking)), es);
      AllSmooth(es) && t.dir == next && |t.procs| == 1 && t.procs[0].pc == Ended(outcome)
  {
    var p := Process(name, value, None, Checking);
    hide Run, Step;
    if dir.final.Some? {
      es := AloneReads(dir, p);
    } else if name in dir.names {
      var go := Event(0, Go, 0);
      es := [go, go, go];
      AloneCollides(dir, p);
    } else {
      es := AloneCreates(dir, p);
    }
  }
}
