/** Planning and applying an item drop (runtime/src/inventory-drops.js, the drop of runtime/src/protocol-session.js). */
module InventoryDrops {
  import opened Common

  const SLOTS: nat := 36
  const ENTRIES: nat := 41
  const MAX_DROP_COUNT: int := 10455
  const MAX_STACK: nat := 255

  /** A stack as the cache holds it; `stackId` is the server's bookkeeping. */
  datatype Stack = Stack(network: int, count: nat, stackId: Option<int>)

  const EMPTY_STACK := Stack(0, 0, None)

  /** Entries 0 to 35 are the inventory slots; 36 to 40 are offhand, head, chest, legs and feet. */
  datatype Selector = Selected | All | Entry(index: nat) | ByItem(wellNamed: bool, network: Option<int>) | Unknown

  datatype Error = BadSelector | BadCount | BadIdentifier | NothingSelected | BadDropCount

  datatype Drop = Drop(entry: nat, amount: nat)

  predicate Usable(s: Option<Stack>) { s.Some? && s.value.network != 0 && s.value.count != 0 }

  predicate Matches(s: Option<Stack>, k: nat, sel: Selector, selected: nat)
  {
    && Usable(s)
    && match sel
       case Selected => k == selected && k < SLOTS
       case All => true
       case Entry(index) => k == index
       case ByItem(_, network) => network == Some(s.value.network)
       case Unknown => false
  }

  /** Why a drop is refused before anything is planned. */
  function Refusal(sel: Selector, count: Option<int>): Option<Error>
  {
    if sel.Unknown? || (sel.Entry? && sel.index >= ENTRIES) then Some(BadSelector)
    else if count.Some? && !(sel.ByItem? && 1 <= count.value <= MAX_DROP_COUNT) then Some(BadCount)
    else if sel.ByItem? && !sel.wellNamed then Some(BadIdentifier)
    else None
  }

  function Least(a: nat, b: nat): nat { if a < b then a else b }

  /** How much of one stack is dropped: one of the selected stack unless all of it was asked for, else what is left. */
  function Amount(held: nat, sel: Selector, whole: bool, budget: Option<nat>): nat
  {
    if sel == Selected && !whole then Least(held, 1) else if budget.Some? then Least(held, budget.value) else held
  }

  function Left(budget: Option<nat>, amount: nat): Option<nat>
  {
    if budget.Some? && budget.value >= amount then Some(budget.value - amount) else if budget.Some? then Some(0) else None
  }

  function PlanFrom(entries: seq<Option<Stack>>, k: nat, sel: Selector, whole: bool, selected: nat, budget: Option<nat>)
    : seq<Drop>
    decreases |entries| - k
  {
    if k >= |entries| then []
    else if !Matches(entries[k], k, sel, selected) then PlanFrom(entries, k + 1, sel, whole, selected, budget)
    else
      var amount := Amount(entries[k].value.count, sel, whole, budget);
      if amount == 0 then []
      else [Drop(k, amount)] + PlanFrom(entries, k + 1, sel, whole, selected, Left(budget, amount))
  }

  function BudgetOf(count: Option<int>): Option<nat>
  {
    if count.Some? && count.value >= 0 then Some(count.value as nat) else None
  }

  /** The source's loop over the entries. */
  method DropPlan(entries: seq<Option<Stack>>, sel: Selector, whole: bool, count: Option<int>, selected: nat)
    returns (r: Result<seq<Drop>, Error>)
    ensures Refusal(sel, count).Some? ==> r == Err(Refusal(sel, count).value)
    ensures Refusal(sel, count).None? ==> r == Ok(PlanFrom(entries, 0, sel, whole, selected, BudgetOf(count)))
  {
    if Refusal(sel, count).Some? { return Err(Refusal(sel, count).value); }
    var budget, plan, k := BudgetOf(count), [], 0;
    while k < |entries|
      invariant 0 <= k <= |entries|
      invariant PlanFrom(entries, 0, sel, whole, selected, BudgetOf(count))
                == plan + PlanFrom(entries, k, sel, whole, selected, budget)
    {
      if Matches(entries[k], k, sel, selected) {
        var amount := Amount(entries[k].value.count, sel, whole, budget);
        if amount == 0 {
          assert plan + [] == plan;
          return Ok(plan);
        }
        plan := plan + [Drop(k, amount)];
        budget := Left(budget, amount);
      }
      k := k + 1;
    }
    assert plan + [] == plan;
    return Ok(plan);
  }

  // -- what a plan drops -----------------------------------------------------------------------------

  /** How many items the selector matches from an entry on. */
  function Total(entries: seq<Option<Stack>>, k: nat, sel: Selector, selected: nat): nat
    decreases |entries| - k
  {
    if k >= |entries| then 0
    else (if Matches(entries[k], k, sel, selected) then entries[k].value.count else 0)
         + Total(entries, k + 1, sel, selected)
  }

  function Dropped(plan: seq<Drop>): nat
  {
    if plan == [] then 0 else plan[0].amount + Dropped(plan[1..])
  }

  /** Drops go up the entries, each of a stack that matches, and no more than the stack holds. */
  ghost predicate Sound(plan: seq<Drop>, entries: seq<Option<Stack>>, sel: Selector, selected: nat)
  {
    && (forall i :: 0 <= i < |plan| ==>
          && plan[i].entry < |entries| && Matches(entries[plan[i].entry], plan[i].entry, sel, selected)
          && 1 <= plan[i].amount <= entries[plan[i].entry].value.count)
    && (forall i, j :: 0 <= i < j < |plan| ==> plan[i].entry < plan[j].entry)
  }

  /** Every matching entry from `k` up to an entry that is dropped from is dropped from, and only the last in part. */
  ghost predicate LowestFirst(plan: seq<Drop>, entries: seq<Option<Stack>>, k: nat, sel: Selector, selected: nat)
  {
    && (forall i :: 0 <= i < |plan| - 1 && plan[i].entry < |entries| && entries[plan[i].entry].Some?
                    ==> plan[i].amount == entries[plan[i].entry].value.count)
    && (forall e :: k <= e < |entries| && plan != [] && e <= plan[|plan| - 1].entry
                    && Matches(entries[e], e, sel, selected)
                    ==> exists i :: 0 <= i < |plan| && plan[i].entry == e)
  }

  ghost predicate From(plan: seq<Drop>, k: nat) { forall i :: 0 <= i < |plan| ==> plan[i].entry >= k }

  lemma MatchesUsable(s: Option<Stack>, k: nat, sel: Selector, selected: nat)
    requires Matches(s, k, sel, selected)
    ensures Usable(s)
  {
  }

  lemma AmountWithin(held: nat, sel: Selector, whole: bool, budget: Option<nat>)
    ensures Amount(held, sel, whole, budget) <= held
    ensures (sel == Selected ==> whole && budget.None?) && budget.None? ==> Amount(held, sel, whole, budget) == held
    ensures (sel == Selected ==> whole && budget.None?) && budget.Some?
            ==> Amount(held, sel, whole, budget) == Least(held, budget.value)
  {
  }

  lemma {:induction false} PlanSound(entries: seq<Option<Stack>>, k: nat, sel: Selector, whole: bool, selected: nat,
                                     budget: Option<nat>)
    ensures var plan := PlanFrom(entries, k, sel, whole, selected, budget);
      Sound(plan, entries, sel, selected) && From(plan, k)
    decreases |entries| - k
  {
    hide Matches, Amount, Left, Sound;
    if k < |entries| && Matches(entries[k], k, sel, selected) {
      MatchesUsable(entries[k], k, sel, selected);
      var amount := Amount(entries[k].value.count, sel, whole, budget);
      AmountWithin(entries[k].value.count, sel, whole, budget);
      PlanSound(entries, k + 1, sel, whole, selected, Left(budget, amount));
      if amount > 0 {
        SoundInFront(entries, k, sel, selected, amount, PlanFrom(entries, k + 1, sel, whole, selected, Left(budget, amount)));
      } else {
        NothingSound(entries, sel, selected);
      }
    } else if k < |entries| {
      PlanSound(entries, k + 1, sel, whole, selected, budget);
    } else {
      NothingSound(entries, sel, selected);
    }
  }

  lemma NothingSound(entries: seq<Option<Stack>>, sel: Selector, selected: nat)
    ensures Sound([], entries, sel, selected)
  {
  }

  lemma SoundInFront(entries: seq<Option<Stack>>, k: nat, sel: Selector, selected: nat, amount: nat, rest: seq<Drop>)
    requires k < |entries| && Matches(entries[k], k, sel, selected) && entries[k].Some?
    requires 1 <= amount <= entries[k].value.count
    requires Sound(rest, entries, sel, selected) && From(rest, k + 1)
    ensures Sound([Drop(k, amount)] + rest, entries, sel, selected) && From([Drop(k, amount)] + rest, k)
  {
    hide Matches;
    var plan := [Drop(k, amount)] + rest;
    assert forall i :: 1 <= i < |plan| ==> plan[i] == rest[i - 1];
  }

  lemma {:induction false} PlanDrops(entries: seq<Option<Stack>>, k: nat, sel: Selector, whole: bool, selected: nat,
                                     budget: Option<nat>)
    requires sel == Selected ==> whole && budget.None?
    ensures var plan := PlanFrom(entries, k, sel, whole, selected, budget);
      && Dropped(plan) == (if budget.Some? then Least(budget.value, Total(entries, k, sel, selected))
                           else Total(entries, k, sel, selected))
      && LowestFirst(plan, entries, k, sel, selected)
    decreases |entries| - k
  {
    hide Matches, Amount, LowestFirst, Sound;
    if k < |entries| && Matches(entries[k], k, sel, selected) {
      MatchesUsable(entries[k], k, sel, selected);
      var held := entries[k].value.count;
      var amount := Amount(held, sel, whole, budget);
      AmountWithin(held, sel, whole, budget);
      var left := Left(budget, amount);
      PlanDrops(entries, k + 1, sel, whole, selected, left);
      PlanSound(entries, k + 1, sel, whole, selected, left);
      if amount > 0 {
        var rest := PlanFrom(entries, k + 1, sel, whole, selected, left);
        if left == Some(0) { NothingLeft(entries, k + 1, sel, whole, selected); }
        FirstInFront(entries, k, sel, selected, amount, rest);
      } else {
        NothingLowest(entries, k, sel, selected);
      }
    } else if k < |entries| {
      PlanDrops(entries, k + 1, sel, whole, selected, budget);
      SkipsOne(entries, k, sel, selected, PlanFrom(entries, k + 1, sel, whole, selected, budget));
    } else {
      NothingLowest(entries, k, sel, selected);
    }
  }

  lemma {:induction false} NothingLeft(entries: seq<Option<Stack>>, k: nat, sel: Selector, whole: bool, selected: nat)
    requires sel != Selected
    ensures PlanFrom(entries, k, sel, whole, selected, Some(0)) == []
    decreases |entries| - k
  {
    if k < |entries| { NothingLeft(entries, k + 1, sel, whole, selected); }
  }

  lemma NothingLowest(entries: seq<Option<Stack>>, k: nat, sel: Selector, selected: nat)
    ensures LowestFirst([], entries, k, sel, selected)
  {
  }

  lemma SkipsOne(entries: seq<Option<Stack>>, k: nat, sel: Selector, selected: nat, plan: seq<Drop>)
    requires k < |entries| && !Matches(entries[k], k, sel, selected) && LowestFirst(plan, entries, k + 1, sel, selected)
    ensures LowestFirst(plan, entries, k, sel, selected)
  {
    hide Matches;
  }

  lemma FirstInFront(entries: seq<Option<Stack>>, k: nat, sel: Selector, selected: nat, amount: nat, rest: seq<Drop>)
    requires k < |entries| && Matches(entries[k], k, sel, selected) && entries[k].Some? && amount > 0
    requires Sound(rest, entries, sel, selected) && From(rest, k + 1) && LowestFirst(rest, entries, k + 1, sel, selected)
    requires rest != [] ==> amount == entries[k].value.count
    ensures LowestFirst([Drop(k, amount)] + rest, entries, k, sel, selected)
    ensures Dropped([Drop(k, amount)] + rest) == amount + Dropped(rest)
  {
    hide Matches;
    var plan := [Drop(k, amount)] + rest;
    assert plan[1..] == rest;
    forall e | k <= e < |entries| && e <= plan[|plan| - 1].entry && Matches(entries[e], e, sel, selected)
      ensures exists i :: 0 <= i < |plan| && plan[i].entry == e
    {
      if e == k {
        assert plan[0].entry == e;
      } else {
        assert rest != [] && plan[|plan| - 1] == rest[|rest| - 1];
        var i :| 0 <= i < |rest| && rest[i].entry == e;
        assert plan[i + 1] == rest[i];
      }
    }
  }

  /**
   * A drop of `n` of an item plans exactly as many as there are, up to `n`, from the lowest entries first, whole stacks
   * but possibly the last, and never more than a stack holds.
   */
  lemma CountedDrop(entries: seq<Option<Stack>>, wellNamed: bool, network: Option<int>, whole: bool, count: int,
                    selected: nat)
    requires Refusal(ByItem(wellNamed, network), Some(count)).None?
    ensures var sel := ByItem(wellNamed, network);
      var plan := PlanFrom(entries, 0, sel, whole, selected, BudgetOf(Some(count)));
      && Dropped(plan) == Least(count, Total(entries, 0, sel, selected))
      && Sound(plan, entries, sel, selected) && LowestFirst(plan, entries, 0, sel, selected)
  {
    PlanSound(entries, 0, ByItem(wellNamed, network), whole, selected, BudgetOf(Some(count)));
    PlanDrops(entries, 0, ByItem(wellNamed, network), whole, selected, BudgetOf(Some(count)));
  }

  /** A drop without a count plans every matching item; of the selected stack it takes one unless all is asked for. */
  lemma UncountedDrop(entries: seq<Option<Stack>>, sel: Selector, whole: bool, selected: nat)
    requires Refusal(sel, None).None?
    ensures var plan := PlanFrom(entries, 0, sel, whole, selected, None);
      && Sound(plan, entries, sel, selected)
      && Dropped(plan) == (if sel == Selected && !whole then Least(1, Total(entries, 0, sel, selected))
                           else Total(entries, 0, sel, selected))
  {
    PlanSound(entries, 0, sel, whole, selected, None);
    if sel == Selected && !whole { OneSelected(entries, 0, selected); }
    else { PlanDrops(entries, 0, sel, whole, selected, None); }
  }

  lemma {:induction false} OneSelected(entries: seq<Option<Stack>>, k: nat, selected: nat)
    ensures Dropped(PlanFrom(entries, k, Selected, false, selected, None)) == Least(1, Total(entries, k, Selected, selected))
    ensures k > selected ==> Total(entries, k, Selected, selected) == 0
                             && PlanFrom(entries, k, Selected, false, selected, None) == []
    decreases |entries| - k
  {
    if k < |entries| {
      OneSelected(entries, k + 1, selected);
      if Matches(entries[k], k, Selected, selected) { assert [Drop(k, 1)] + [] == [Drop(k, 1)] && [Drop(k, 1)][1..] == []; }
    }
  }

  // -- applying a plan to the cache -------------------------------------------------------------------

  /** What is cached after a drop: the rest of the stack without its server id, or the empty stack. */
  function Remaining(s: Stack, amount: nat): Stack
    requires amount <= s.count
  {
    if amount == s.count then EMPTY_STACK else Stack(s.network, s.count - amount, None)
  }

  predicate Droppable(entries: seq<Option<Stack>>, d: Drop)
  {
    && d.entry < |entries| && d.entry < ENTRIES && entries[d.entry].Some? && entries[d.entry].value.network != 0
    && 1 <= d.amount <= entries[d.entry].value.count && d.amount <= MAX_STACK
  }

  function CountAt(s: Option<Stack>): nat { if s.Some? then s.value.count else 0 }

  /** How much a plan takes from one entry. */
  function TakenFrom(plan: seq<Drop>, e: nat): nat
  {
    if plan == [] then 0 else (if plan[0].entry == e then plan[0].amount else 0) + TakenFrom(plan[1..], e)
  }

  function Entries(inventory: seq<Option<Stack>>, equipment: seq<Option<Stack>>): (r: seq<Option<Stack>>)
    ensures |r| == ENTRIES
  {
    seq(ENTRIES, k requires 0 <= k < ENTRIES =>
      if k < SLOTS then (if k < |inventory| then inventory[k] else None)
      else if k - SLOTS < |equipment| then equipment[k - SLOTS] else None)
  }

  class PlayerInventory {
    const inventory: array<Option<Stack>>
    const equipment: array<Option<Stack>>

    ghost predicate Valid() { inventory != equipment }

    ghost function Cache(): seq<Option<Stack>>
      reads inventory, equipment
    {
      Entries(inventory[..], equipment[..])
    }

    constructor (inventory: array<Option<Stack>>, equipment: array<Option<Stack>>)
      requires inventory != equipment
      ensures Valid() && this.inventory == inventory && this.equipment == equipment
    {
      this.inventory := inventory;
      this.equipment := equipment;
    }

    method ReadEntries() returns (entries: seq<Option<Stack>>)
      ensures entries == Cache()
    {
      entries := Entries(inventory[..], equipment[..]);
    }

    /**
     * Plans a drop, refuses it whole if any of its packets would be, and then takes every part of it out of the cache:
     * what each entry has left and what was dropped of it add up to what it had, and nothing else changes.
     */
    method DropItems(sel: Selector, whole: bool, count: Option<int>, selected: nat) returns (r: Result<seq<Drop>, Error>)
      requires Valid()
      modifies inventory, equipment
      ensures r.Err? ==> inventory[..] == old(inventory[..]) && equipment[..] == old(equipment[..])
      ensures r.Err? <==>
        || Refusal(sel, count).Some?
        || (var plan := PlanFrom(old(Cache()), 0, sel, whole, selected, BudgetOf(count));
            (plan == [] && sel == Selected) || exists d :: d in plan && !Droppable(old(Cache()), d))
      ensures r.Ok? ==> r.value == PlanFrom(old(Cache()), 0, sel, whole, selected, BudgetOf(count))
      ensures r.Ok? ==> Sound(r.value, old(Cache()), sel, selected)
      ensures r.Ok? ==> forall e :: 0 <= e < ENTRIES ==>
        && CountAt(Cache()[e]) + TakenFrom(r.value, e) == CountAt(old(Cache())[e])
        && (TakenFrom(r.value, e) == 0 ==> Cache()[e] == old(Cache())[e])
        && (CountAt(Cache()[e]) > 0 ==> Cache()[e].value.network == old(Cache())[e].value.network)
    {
      hide Matches;
      var entries := ReadEntries();
      var planned := DropPlan(entries, sel, whole, count, selected);
      if planned.Err? { return planned; }
      var plan := planned.value;
      PlanSound(entries, 0, sel, whole, selected, BudgetOf(count));
      if plan == [] && sel == Selected { return Err(NothingSelected); }
      if exists d :: d in plan && !Droppable(entries, d) { return Err(BadDropCount); }
      var i := 0;
      while i < |plan|
        invariant 0 <= i <= |plan|
        invariant Applied(entries, Cache(), plan, i)
      {
        ghost var before := Cache();
        var e, amount := plan[i].entry, plan[i].amount;
        assert plan[i] in plan;
        assert Droppable(entries, plan[i]);
        assert before[e] == entries[e];
        var rest := Some(Remaining(entries[e].value, amount));
        if e < SLOTS { inventory[e] := rest; } else { equipment[e - SLOTS] := rest; }
        assert Cache() == before[e := rest];
        AppliedNext(entries, before, plan, i);
        i := i + 1;
      }
      AppliedAll(entries, Cache(), plan);
      return Ok(plan);
    }
  }

  /** After the first `n` drops: those entries are taken from, the others are as they were. */
  ghost predicate Applied(entries: seq<Option<Stack>>, cache: seq<Option<Stack>>, plan: seq<Drop>, n: nat)
    requires n <= |plan|
  {
    && |cache| == |entries|
    && (forall i :: 0 <= i < n ==> Droppable(entries, plan[i])
                                   && cache[plan[i].entry] == Some(Remaining(entries[plan[i].entry].value, plan[i].amount)))
    && (forall e :: 0 <= e < |entries| && (forall i :: 0 <= i < n ==> plan[i].entry != e) ==> cache[e] == entries[e])
  }

  lemma AppliedNext(entries: seq<Option<Stack>>, cache: seq<Option<Stack>>, plan: seq<Drop>, n: nat)
    requires n < |plan| && Applied(entries, cache, plan, n) && Droppable(entries, plan[n])
    requires forall i, j :: 0 <= i < j < |plan| ==> plan[i].entry < plan[j].entry
    ensures Applied(entries, cache[plan[n].entry := Some(Remaining(entries[plan[n].entry].value, plan[n].amount))], plan,
                    n + 1)
  {
  }

  lemma {:induction false} TakenAt(plan: seq<Drop>, i: nat)
    requires i < |plan| && forall k, j :: 0 <= k < j < |plan| ==> plan[k].entry < plan[j].entry
    ensures TakenFrom(plan, plan[i].entry) == plan[i].amount
    decreases |plan|
  {
    if i > 0 {
      TakenAt(plan[1..], i - 1);
    } else {
      TakenNowhere(plan[1..], plan[0].entry);
    }
  }

  lemma {:induction false} TakenNowhere(plan: seq<Drop>, e: nat)
    requires forall i :: 0 <= i < |plan| ==> plan[i].entry != e
    ensures TakenFrom(plan, e) == 0
    decreases |plan|
  {
    if plan != [] { TakenNowhere(plan[1..], e); }
  }

  lemma AppliedAt(entries: seq<Option<Stack>>, cache: seq<Option<Stack>>, plan: seq<Drop>, e: nat)
    requires Applied(entries, cache, plan, |plan|) && e < |entries|
    requires forall i, j :: 0 <= i < j < |plan| ==> plan[i].entry < plan[j].entry
    ensures CountAt(cache[e]) + TakenFrom(plan, e) == CountAt(entries[e])
    ensures TakenFrom(plan, e) == 0 ==> cache[e] == entries[e]
    ensures CountAt(cache[e]) > 0 ==> entries[e].Some? && cache[e].value.network == entries[e].value.network
  {
    if i :| 0 <= i < |plan| && plan[i].entry == e { TakenAt(plan, i); } else { TakenNowhere(plan, e); }
  }

  lemma AppliedAll(entries: seq<Option<Stack>>, cache: seq<Option<Stack>>, plan: seq<Drop>)
    requires Applied(entries, cache, plan, |plan|)
    requires forall i, j :: 0 <= i < j < |plan| ==> plan[i].entry < plan[j].entry
    ensures forall e :: 0 <= e < |entries| ==>
      && CountAt(cache[e]) + TakenFrom(plan, e) == CountAt(entries[e])
      && (TakenFrom(plan, e) == 0 ==> cache[e] == entries[e])
      && (CountAt(cache[e]) > 0 ==> entries[e].Some? && cache[e].value.network == entries[e].value.network)
  {
    forall e | 0 <= e < |entries| { AppliedAt(entries, cache, plan, e); }
  }
}
