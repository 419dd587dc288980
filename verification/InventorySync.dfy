/** Putting inventory observations together from fragments (runtime/src/inventory-sync.js). */
module InventorySync {
  import opened Common

  type Bytes = seq<bv8>

  const MAX_INVENTORY_BYTES: nat := 2 * 1024 * 1024
  const MAX_PARTS: int := 64
  const MAX_CHUNK: nat := 40962

  /** One fragment with its decoded data; one that does not parse is `Garbled`. */
  datatype Fragment = Garbled | Fragment(identity: string, sequence: int, parts: int, part: int, chunk: Bytes)

  datatype Pending = Pending(sequence: int, parts: int, chunks: map<int, Bytes>, bytes: nat)

  datatype Observation = Observation(sequence: int, pending: Option<Pending>)

  datatype Refusal = InvalidFragment | ConflictingParts | ConflictingChunk | TooLarge | Undecodable

  datatype Outcome<+S> = Nothing | Snapshot(value: S) | Refused(reason: Refusal)

  const FRESH := Observation(-1, None)

  predicate Valid(f: Fragment, identity: string)
  {
    && f.Fragment? && f.identity == identity && f.sequence >= 0
    && 1 <= f.parts <= MAX_PARTS && 0 <= f.part < f.parts && |f.chunk| <= MAX_CHUNK
  }

  /** Fragments of a sequence that was accepted, or of one older than the one being gathered, are ignored. */
  predicate Stale(o: Observation, f: Fragment)
    requires f.Fragment?
  {
    f.sequence <= o.sequence || (o.pending.Some? && f.sequence < o.pending.value.sequence)
  }

  function Gathering(o: Observation, f: Fragment): Pending
    requires f.Fragment?
  {
    if o.pending.None? || f.sequence > o.pending.value.sequence then Pending(f.sequence, f.parts, map[], 0)
    else o.pending.value
  }

  function Added(p: Pending, f: Fragment): Pending
    requires f.Fragment?
  {
    if f.part in p.chunks then p else p.(chunks := p.chunks[f.part := f.chunk], bytes := p.bytes + |f.chunk|)
  }

  /** The chunks from 0 up, in order. */
  function Joined(chunks: map<int, Bytes>, n: nat): Bytes
    requires forall k :: 0 <= k < n ==> k in chunks
  {
    if n == 0 then [] else Joined(chunks, n - 1) + chunks[n - 1]
  }

  predicate Full(p: Pending) { p.parts >= 0 && forall k :: 0 <= k < p.parts ==> k in p.chunks }

  /** One call: the state after it, and what it returns or throws. */
  function Accept<S>(o: Observation, f: Fragment, identity: string, decode: Bytes -> Option<S>)
    : (Observation, Outcome<S>)
  {
    if !Valid(f, identity) then (o, Refused(InvalidFragment))
    else if Stale(o, f) then (o, Nothing)
    else
      var gathering := Gathering(o, f);
      var kept := o.(pending := Some(gathering));
      if gathering.parts != f.parts then (kept, Refused(ConflictingParts))
      else if f.part in gathering.chunks && gathering.chunks[f.part] != f.chunk then (kept, Refused(ConflictingChunk))
      else
        var added := Added(gathering, f);
        if added.bytes > MAX_INVENTORY_BYTES then (o.(pending := None), Refused(TooLarge))
        else if |added.chunks| != added.parts then (o.(pending := Some(added)), Nothing)
        else
          var value := if Full(added) then decode(Joined(added.chunks, added.parts)) else None;
          if value.None? then (o.(pending := None), Refused(Undecodable))
          else (Observation(f.sequence, None), Snapshot(value.value))
  }

  lemma ValidParts(f: Fragment, identity: string)
    ensures Valid(f, identity) ==> f.Fragment?
  {
  }

  class InventoryObservation {
    var sequence: int
    var pending: Option<Pending>

    ghost function View(): Observation
      reads this
    {
      Observation(sequence, pending)
    }

    constructor ()
      ensures View() == FRESH
    {
      sequence, pending := -1, None;
    }

    method AcceptFragment<S>(f: Fragment, identity: string, decode: Bytes -> Option<S>) returns (r: Outcome<S>)
      modifies this
      ensures (View(), r) == Accept(old(View()), f, identity, decode)
    {
      hide Joined, Full, Valid;
      if !Valid(f, identity) { return Refused(InvalidFragment); }
      assert f.Fragment? by { ValidParts(f, identity); }
      if f.sequence <= sequence || (pending.Some? && f.sequence < pending.value.sequence) { return Nothing; }
      if pending.None? || f.sequence > pending.value.sequence { pending := Some(Pending(f.sequence, f.parts, map[], 0)); }
      var gathering := pending.value;
      if gathering.parts != f.parts { return Refused(ConflictingParts); }
      if f.part in gathering.chunks {
        if gathering.chunks[f.part] != f.chunk { return Refused(ConflictingChunk); }
      } else {
        gathering := gathering.(chunks := gathering.chunks[f.part := f.chunk], bytes := gathering.bytes + |f.chunk|);
        pending := Some(gathering);
      }
      if gathering.bytes > MAX_INVENTORY_BYTES {
        pending := None;
        return Refused(TooLarge);
      }
      if |gathering.chunks| != gathering.parts { return Nothing; }
      pending := None;
      if !Full(gathering) { return Refused(Undecodable); }
      var bytes := Concatenated(gathering);
      var value := decode(bytes);
      if value.None? { return Refused(Undecodable); }
      sequence := f.sequence;
      return Snapshot(value.value);
    }

    method Concatenated(p: Pending) returns (bytes: Bytes)
      requires Full(p)
      ensures bytes == Joined(p.chunks, p.parts)
    {
      bytes := [];
      var k := 0;
      while k < p.parts
        invariant 0 <= k <= p.parts && bytes == Joined(p.chunks, k)
      {
        bytes := bytes + p.chunks[k];
        k := k + 1;
      }
    }
  }

  // -- streams of fragments -----------------------------------------------------------------------

  function After<S>(fs: seq<Fragment>, identity: string, decode: Bytes -> Option<S>): Observation
  {
    if fs == [] then FRESH else Accept(After(fs[..|fs| - 1], identity, decode), fs[|fs| - 1], identity, decode).0
  }

  /** What the call for fragment `i` of a stream returns. */
  function Returned<S>(fs: seq<Fragment>, i: nat, identity: string, decode: Bytes -> Option<S>): Outcome<S>
    requires i < |fs|
  {
    Accept(After(fs[..i], identity, decode), fs[i], identity, decode).1
  }

  /** Fragment `j` is part `k` of that many parts of a sequence. */
  predicate IsPart(f: Fragment, identity: string, sequence: int, parts: int, k: int)
  {
    Valid(f, identity) && f.sequence == sequence && f.parts == parts && f.part == k
  }

  /** Every chunk that is kept came in a fragment of the one sequence being gathered. */
  ghost predicate Sourced(fs: seq<Fragment>, identity: string, p: Pending)
  {
    forall k :: k in p.chunks ==>
      0 <= k < p.parts
      && exists j :: 0 <= j < |fs| && IsPart(fs[j], identity, p.sequence, p.parts, k) && fs[j].chunk == p.chunks[k]
  }

  ghost predicate Inv(fs: seq<Fragment>, identity: string, o: Observation)
  {
    o.pending.Some? ==> Sourced(fs, identity, o.pending.value) && o.pending.value.sequence > o.sequence
  }

  lemma SourcedMore(fs: seq<Fragment>, f: Fragment, identity: string, p: Pending)
    requires Sourced(fs, identity, p)
    ensures Sourced(fs + [f], identity, p)
  {
    forall k | k in p.chunks
      ensures exists j :: 0 <= j < |fs + [f]| && IsPart((fs + [f])[j], identity, p.sequence, p.parts, k)
                          && (fs + [f])[j].chunk == p.chunks[k]
    {
      var j :| 0 <= j < |fs| && IsPart(fs[j], identity, p.sequence, p.parts, k) && fs[j].chunk == p.chunks[k];
      assert (fs + [f])[j] == fs[j];
    }
  }

  lemma SourcedAdded(fs: seq<Fragment>, f: Fragment, identity: string, p: Pending)
    requires f.Fragment? && Sourced(fs, identity, p) && IsPart(f, identity, p.sequence, p.parts, f.part)
    ensures Sourced(fs + [f], identity, Added(p, f))
  {
    SourcedMore(fs, f, identity, p);
    assert (fs + [f])[|fs|] == f;
  }

  lemma AcceptKeeps<S>(fs: seq<Fragment>, f: Fragment, o: Observation, identity: string, decode: Bytes -> Option<S>)
    requires Inv(fs, identity, o)
    ensures Inv(fs + [f], identity, Accept(o, f, identity, decode).0)
  {
    hide Sourced;
    if o.pending.Some? { SourcedMore(fs, f, identity, o.pending.value); }
    if Valid(f, identity) && !Stale(o, f) {
      var gathering := Gathering(o, f);
      assert Sourced(fs, identity, gathering) by { NothingSourced(fs, identity, f); }
      SourcedMore(fs, f, identity, gathering);
      if gathering.parts == f.parts { SourcedAdded(fs, f, identity, gathering); }
    }
  }

  lemma NothingSourced(fs: seq<Fragment>, identity: string, f: Fragment)
    requires f.Fragment?
    ensures Sourced(fs, identity, Pending(f.sequence, f.parts, map[], 0))
  {
  }

  lemma {:induction false} StreamKeeps<S>(fs: seq<Fragment>, identity: string, decode: Bytes -> Option<S>)
    ensures Inv(fs, identity, After(fs, identity, decode))
  {
    hide Inv, Accept;
    if fs == [] {
      assert Inv(fs, identity, FRESH) by { NothingPending(fs, identity); }
    } else {
      var before, f := fs[..|fs| - 1], fs[|fs| - 1];
      StreamKeeps(before, identity, decode);
      AcceptKeeps(before, f, After(before, identity, decode), identity, decode);
      assert before + [f] == fs;
    }
  }

  lemma NothingPending(fs: seq<Fragment>, identity: string)
    ensures Inv(fs, identity, FRESH)
  {
  }

  /** The parts of one sequence, each taken from some fragment of the stream, in the order of their numbers. */
  ghost predicate Gathered(fs: seq<Fragment>, identity: string, sequence: int, chunks: seq<Bytes>)
  {
    && 1 <= |chunks| <= MAX_PARTS
    && forall k :: 0 <= k < |chunks| ==>
         exists j :: 0 <= j < |fs| && IsPart(fs[j], identity, sequence, |chunks|, k) && fs[j].chunk == chunks[k]
  }

  function Concat(chunks: seq<Bytes>): Bytes
  {
    if chunks == [] then [] else Concat(chunks[..|chunks| - 1]) + chunks[|chunks| - 1]
  }

  lemma {:induction false} JoinedIsConcat(chunks: map<int, Bytes>, all: seq<Bytes>, n: nat)
    requires n <= |all| && forall k :: 0 <= k < |all| ==> k in chunks && chunks[k] == all[k]
    ensures Joined(chunks, n) == Concat(all[..n])
  {
    if n > 0 {
      JoinedIsConcat(chunks, all, n - 1);
      assert all[..n][..n - 1] == all[..n - 1];
    }
  }

  function Below(n: nat): (s: set<int>)
    ensures |s| == n && forall k :: k in s <==> 0 <= k < n
  {
    if n == 0 then {} else Below(n - 1) + {n - 1}
  }

  lemma SubsetSize(a: set<int>, b: set<int>)
    requires a <= b && |a| == |b|
    ensures a == b
  {
    assert b == a + (b - a) && |b| == |a| + |b - a|;
  }

  /** As many chunks as parts means that every part is there. */
  lemma SizeMeansFull(p: Pending)
    requires p.parts >= 0 && |p.chunks| == p.parts && forall k :: k in p.chunks ==> 0 <= k < p.parts
    ensures Full(p)
  {
    assert |p.chunks.Keys| == |p.chunks|;
    assert p.chunks.Keys <= Below(p.parts);
    SubsetSize(p.chunks.Keys, Below(p.parts));
  }

  /**
   * Every snapshot that is returned decodes the in-order concatenation of the full set of parts of one sequence,
   * whatever was lost, repeated, reordered or interleaved on the way.
   */
  lemma SnapshotsAreWhole<S>(fs: seq<Fragment>, i: nat, identity: string, decode: Bytes -> Option<S>)
    requires i < |fs|
    ensures Returned(fs, i, identity, decode).Snapshot? ==>
      fs[i].Fragment? && exists chunks ::
        Gathered(fs[..i + 1], identity, fs[i].sequence, chunks)
        && decode(Concat(chunks)) == Some(Returned(fs, i, identity, decode).value)
  {
    if !Returned(fs, i, identity, decode).Snapshot? { return; }
    var o, f := After(fs[..i], identity, decode), fs[i];
    StreamKeeps(fs[..i], identity, decode);
    assert Inv(fs[..i], identity, o);
    assert fs[..i] + [f] == fs[..i + 1];
    hide After;
    assert Accept(o, f, identity, decode).1 == Returned(fs, i, identity, decode);
    hide Returned;
    var added := AcceptedFrom(fs[..i], o, f, identity, decode);
    SizeMeansFull(added);
    var chunks := ChunksOf(added);
    SourcedGathered(fs[..i + 1], identity, added, chunks);
  }

  /** The pending fragments that a returned snapshot is decoded from. */
  lemma AcceptedFrom<S>(fs: seq<Fragment>, o: Observation, f: Fragment, identity: string, decode: Bytes -> Option<S>)
    returns (added: Pending)
    requires Inv(fs, identity, o) && Accept(o, f, identity, decode).1.Snapshot?
    ensures f.Fragment? && Sourced(fs + [f], identity, added) && added.sequence == f.sequence
    ensures 1 <= added.parts <= MAX_PARTS && |added.chunks| == added.parts
    ensures (forall k :: k in added.chunks ==> 0 <= k < added.parts)
    ensures Full(added) && decode(Joined(added.chunks, added.parts)) == Some(Accept(o, f, identity, decode).1.value)
  {
    var gathering := Gathering(o, f);
    added := Added(gathering, f);
    assert Sourced(fs, identity, gathering);
    SourcedAdded(fs, f, identity, gathering);
  }

  function ChunksOf(p: Pending): (r: seq<Bytes>)
    requires Full(p)
    ensures |r| == p.parts && forall k :: 0 <= k < |r| ==> r[k] == p.chunks[k]
  {
    seq(p.parts, k requires 0 <= k < p.parts && Full(p) => p.chunks[k])
  }

  lemma SourcedGathered(fs: seq<Fragment>, identity: string, p: Pending, chunks: seq<Bytes>)
    requires Sourced(fs, identity, p) && Full(p) && 1 <= p.parts <= MAX_PARTS && chunks == ChunksOf(p)
    ensures Gathered(fs, identity, p.sequence, chunks) && Concat(chunks) == Joined(p.chunks, p.parts)
  {
    JoinedIsConcat(p.chunks, chunks, p.parts);
    assert chunks[..p.parts] == chunks;
  }

  /** The accepted sequence moves exactly when a snapshot is returned, and only to a newer one. */
  lemma AcceptedMoves<S>(fs: seq<Fragment>, i: nat, identity: string, decode: Bytes -> Option<S>)
    requires i < |fs|
    ensures var before, after := After(fs[..i], identity, decode).sequence, After(fs[..i + 1], identity, decode).sequence;
      if Returned(fs, i, identity, decode).Snapshot? then fs[i].Fragment? && before < after == fs[i].sequence
      else after == before
  {
    assert fs[..i + 1][..i] == fs[..i];
  }

  lemma {:induction false} AcceptedGrows<S>(fs: seq<Fragment>, i: nat, k: nat, identity: string, decode: Bytes -> Option<S>)
    requires i <= k <= |fs|
    ensures After(fs[..i], identity, decode).sequence <= After(fs[..k], identity, decode).sequence
    decreases k - i
  {
    hide After, Returned;
    if i < k {
      AcceptedMoves(fs, i, identity, decode);
      AcceptedGrows(fs, i + 1, k, identity, decode);
    }
  }

  /** The sequences of the snapshots that a stream returns strictly increase. */
  lemma SnapshotsIncrease<S>(fs: seq<Fragment>, i: nat, k: nat, identity: string, decode: Bytes -> Option<S>)
    requires i < k < |fs|
    ensures Returned(fs, i, identity, decode).Snapshot? && Returned(fs, k, identity, decode).Snapshot?
            ==> fs[i].Fragment? && fs[k].Fragment? && fs[i].sequence < fs[k].sequence
  {
    hide After, Returned;
    AcceptedMoves(fs, i, identity, decode);
    AcceptedGrows(fs, i + 1, k, identity, decode);
    AcceptedMoves(fs, k, identity, decode);
  }

  // -- a sequence that arrives whole is accepted --------------------------------------------------------

  /** The fragment is that part of the data, or one that the gathering ignores. */
  predicate Honest(f: Fragment, identity: string, sequence: int, data: seq<Bytes>)
  {
    || !Valid(f, identity) || f.sequence < sequence
    || (f.sequence == sequence && f.parts == |data| && f.part < |data| && f.chunk == data[f.part])
  }

  function Size(data: seq<Bytes>, got: set<int>, n: nat): nat
    requires n <= |data|
  {
    if n == 0 then 0 else Size(data, got, n - 1) + if n - 1 in got then |data[n - 1]| else 0
  }

  lemma {:induction false} SizeAdd(data: seq<Bytes>, got: set<int>, k: int, n: nat)
    requires n <= |data| && 0 <= k < |data| && k !in got
    ensures Size(data, got + {k}, n) == Size(data, got, n) + if k < n then |data[k]| else 0
  {
    if n > 0 { SizeAdd(data, got, k, n - 1); }
  }

  lemma {:induction false} SizeWithin(data: seq<Bytes>, got: set<int>, n: nat)
    requires n <= |data|
    ensures Size(data, got, n) <= |Concat(data[..n])|
  {
    if n > 0 {
      SizeWithin(data, got, n - 1);
      assert data[..n][..n - 1] == data[..n - 1];
    }
  }

  /** The parts of the sequence that have come so far. */
  function Got(fs: seq<Fragment>, identity: string, sequence: int): set<int>
  {
    if fs == [] then {}
    else Got(fs[..|fs| - 1], identity, sequence)
         + if Valid(fs[|fs| - 1], identity) && fs[|fs| - 1].sequence == sequence then {fs[|fs| - 1].part} else {}
  }

  /** Exactly what has come of the data is kept; nothing newer is in the way. */
  ghost predicate Holds(o: Observation, got: set<int>, sequence: int, data: seq<Bytes>)
  {
    && o.sequence < sequence
    && (o.pending.Some? ==> o.pending.value.sequence <= sequence)
    && (o.pending.Some? && o.pending.value.sequence == sequence ==>
          var p := o.pending.value;
          p.parts == |data| && p.chunks.Keys == got && p.bytes == Size(data, got, |data|)
          && forall k :: k in got ==> 0 <= k < |data| && p.chunks[k] == data[k])
    && (o.pending.None? || o.pending.value.sequence < sequence ==> got == {})
  }

  predicate AllCome(got: set<int>, n: nat) { forall k :: 0 <= k < n ==> k in got }

  /** What is gathered with one more part of the data. */
  lemma PartAdded(o: Observation, got: set<int>, f: Fragment, sequence: int, data: seq<Bytes>)
    requires f.Fragment? && f.sequence == sequence && f.parts == |data| && 0 <= f.part < |data| && f.chunk == data[f.part]
    requires Holds(o, got, sequence, data)
    ensures var p := Gathering(o, f);
      var added, now := Added(p, f), got + {f.part};
      && p.sequence == sequence && p.parts == |data| && added.sequence == sequence && added.parts == |data|
      && (f.part in p.chunks ==> p.chunks[f.part] == f.chunk)
      && added.chunks.Keys == now && added.bytes == Size(data, now, |data|)
      && (forall k :: k in now ==> 0 <= k < |data| && added.chunks[k] == data[k])
      && added.bytes <= |Concat(data)|
  {
    hide Size, Concat;
    var p := Gathering(o, f);
    EmptySize(data, |data|);
    assert p.chunks.Keys == got && p.bytes == Size(data, got, |data|);
    if f.part !in got { SizeAdd(data, got, f.part, |data|); } else { assert got + {f.part} == got; }
    SizeWithin(data, got + {f.part}, |data|);
    assert data[..|data|] == data;
  }

  lemma AllComeFull(p: Pending, now: set<int>, data: seq<Bytes>)
    requires p.parts == |data| && p.chunks.Keys == now
    requires forall k :: k in now ==> 0 <= k < |data| && p.chunks[k] == data[k]
    ensures AllCome(now, |data|) <==> |p.chunks| == |data|
    ensures AllCome(now, |data|) ==> Full(p) && Joined(p.chunks, p.parts) == Concat(data)
  {
    assert |p.chunks| == |p.chunks.Keys|;
    if |p.chunks| == |data| { SizeMeansFull(p); }
    if AllCome(now, |data|) {
      assert now == Below(|data|);
      JoinedIsConcat(p.chunks, data, |data|);
      assert data[..|data|] == data;
    }
  }

  lemma HonestAccept<S>(o: Observation, got: set<int>, f: Fragment, identity: string, sequence: int, data: seq<Bytes>,
                        decode: Bytes -> Option<S>)
    requires Holds(o, got, sequence, data) && Honest(f, identity, sequence, data) && !AllCome(got, |data|)
    requires 1 <= |data| <= MAX_PARTS && |Concat(data)| <= MAX_INVENTORY_BYTES && decode(Concat(data)).Some?
    ensures var (next, outcome) := Accept(o, f, identity, decode);
      var now := got + if Valid(f, identity) && f.sequence == sequence then {f.part} else {};
      if AllCome(now, |data|) then outcome == Snapshot(decode(Concat(data)).value) && next.sequence == sequence
      else Holds(next, now, sequence, data)
           && (Valid(f, identity) && f.sequence == sequence ==> outcome == Nothing)
  {
    hide Size, Concat, AllCome, Joined, Full;
    if Valid(f, identity) && f.sequence == sequence {
      PartAdded(o, got, f, sequence, data);
      AllComeFull(Added(Gathering(o, f), f), got + {f.part}, data);
      hide Added, Gathering;
    } else {
      assert got + {} == got;
    }
  }

  lemma {:induction false} EmptySize(data: seq<Bytes>, n: nat)
    requires n <= |data|
    ensures Size(data, {}, n) == 0
  {
    if n > 0 { EmptySize(data, n - 1); }
  }

  lemma {:induction false} HonestStream<S>(fs: seq<Fragment>, identity: string, sequence: int, data: seq<Bytes>,
                                           decode: Bytes -> Option<S>)
    requires forall f :: f in fs ==> Honest(f, identity, sequence, data)
    requires !AllCome(Got(fs, identity, sequence), |data|) && sequence >= 0
    requires 1 <= |data| <= MAX_PARTS && |Concat(data)| <= MAX_INVENTORY_BYTES && decode(Concat(data)).Some?
    ensures Holds(After(fs, identity, decode), Got(fs, identity, sequence), sequence, data)
  {
    hide Accept, Honest, Valid, Holds;
    if fs == [] {
      assert Holds(FRESH, {}, sequence, data) by { FreshHolds(sequence, data); }
    } else {
      var before, f := fs[..|fs| - 1], fs[|fs| - 1];
      assert forall g :: g in before ==> g in fs;
      assert f in fs;
      HonestStream(before, identity, sequence, data, decode);
      HonestAccept(After(before, identity, decode), Got(before, identity, sequence), f, identity, sequence, data, decode);
    }
  }

  lemma FreshHolds(sequence: int, data: seq<Bytes>)
    requires sequence >= 0
    ensures Holds(FRESH, {}, sequence, data)
  {
  }

  /**
   * Where a stream carries every part of a sequence, in any order and any number of times, among fragments of older
   * sequences and garbled ones, the last missing part returns the decoded whole.
   */
  lemma WholeSequenceIsReturned<S>(fs: seq<Fragment>, i: nat, identity: string, sequence: int, data: seq<Bytes>,
                                   decode: Bytes -> Option<S>)
    requires i < |fs| && sequence >= 0 && forall f :: f in fs ==> Honest(f, identity, sequence, data)
    requires !AllCome(Got(fs[..i], identity, sequence), |data|) && AllCome(Got(fs[..i + 1], identity, sequence), |data|)
    requires 1 <= |data| <= MAX_PARTS && |Concat(data)| <= MAX_INVENTORY_BYTES && decode(Concat(data)).Some?
    ensures Returned(fs, i, identity, decode) == Snapshot(decode(Concat(data)).value)
  {
    hide Accept, Honest, Holds, AllCome, After;
    assert fs[..i + 1][..i] == fs[..i];
    assert forall f :: f in fs[..i] ==> f in fs;
    assert fs[i] in fs;
    HonestStream(fs[..i], identity, sequence, data, decode);
    HonestAccept(After(fs[..i], identity, decode), Got(fs[..i], identity, sequence), fs[i], identity, sequence, data, decode);
  }
}
