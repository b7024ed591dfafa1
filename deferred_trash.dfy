/**
 * Deferred destruction (lib/common/include/venom/common/DeferredTrash.h and
 * lib/common/src/DeferredTrash.cc): objects the GPU may still use are put in a bin
 * with a frame counter and destroyed only once the counter has run out.
 *
 * Objects are named by their address; calling a destructor is recorded in a log of
 * `Freed` entries, in call order.
 */
module DeferredTrash {
  /** VENOM_MAX_FRAMES_IN_FLIGHT. */
  const MaxFramesInFlight: int := 3

  /** A pointer handed to the bin. */
  datatype Ptr = Null | Ptr(address: nat)

  /** How a block's object is destroyed: `delete` of its own type, or a destructor the caller passed. */
  datatype Destructor = Delete | Custom(function_: nat)

  /** `TrashBlock`. */
  datatype Block = Block(counter: int, trash: nat, destructor: Destructor)

  /** One destructor call. */
  datatype Freed = Freed(trash: nat, destructor: Destructor)

  function FreedOf(b: Block): Freed { Freed(b.trash, b.destructor) }

  /** The blocks one `EmptyDeferredTrash` destroys: those whose counter is 0, in order. */
  function Due(blocks: seq<Block>): seq<Freed> {
    if blocks == [] then []
    else (if blocks[0].counter == 0 then [FreedOf(blocks[0])] else []) + Due(blocks[1..])
  }

  /** The blocks it keeps, in order, each with its counter decremented. */
  function Survivors(blocks: seq<Block>): seq<Block> {
    if blocks == [] then []
    else
      var b := blocks[0];
      (if b.counter - 1 >= 0 then [b.(counter := b.counter - 1)] else []) + Survivors(blocks[1..])
  }

  /** Every block is destroyed by the destructor of the bin: all of them, in order. */
  function AllFreed(blocks: seq<Block>): seq<Freed> {
    if blocks == [] then [] else [FreedOf(blocks[0])] + AllFreed(blocks[1..])
  }

  /** The counters a bin can hold: 0 up to VENOM_MAX_FRAMES_IN_FLIGHT. */
  ghost predicate CountersInRange(blocks: seq<Block>) {
    forall k :: 0 <= k < |blocks| ==> 0 <= blocks[k].counter <= MaxFramesInFlight
  }

  /** How many blocks hold object `o`. */
  function Copies(o: nat, blocks: seq<Block>): nat {
    if blocks == [] then 0 else (if blocks[0].trash == o then 1 else 0) + Copies(o, blocks[1..])
  }

  /** How many destructor calls went to object `o`. */
  function FreedCopies(o: nat, freed: seq<Freed>): nat {
    if freed == [] then 0 else (if freed[0].trash == o then 1 else 0) + FreedCopies(o, freed[1..])
  }

  lemma {:induction false} FreedCopiesAppend(o: nat, a: seq<Freed>, b: seq<Freed>)
    ensures FreedCopies(o, a + b) == FreedCopies(o, a) + FreedCopies(o, b)
  {
    if a != [] {
      assert (a + b)[1..] == a[1..] + b;
      FreedCopiesAppend(o, a[1..], b);
    } else {
      assert a + b == b;
    }
  }

  /**
   * One empty destroys or keeps every block, never both and never neither: no object is
   * destroyed twice and none is lost, provided no counter was already negative.
   */
  lemma {:induction false} EmptyConserves(blocks: seq<Block>, o: nat)
    requires CountersInRange(blocks)
    ensures FreedCopies(o, Due(blocks)) + Copies(o, Survivors(blocks)) == Copies(o, blocks)
  {
    if blocks != [] {
      var b := blocks[0];
      var rest := blocks[1..];
      EmptyConserves(rest, o);
      var here := if b.trash == o then 1 else 0;
      assert Copies(o, blocks) == here + Copies(o, rest);
      if b.counter == 0 {
        assert Due(blocks) == [FreedOf(b)] + Due(rest);
        FreedCopiesAppend(o, [FreedOf(b)], Due(rest));
        assert FreedCopies(o, [FreedOf(b)]) == here by {
          assert [FreedOf(b)][1..] == [];
        }
        assert Survivors(blocks) == Survivors(rest);
      } else {
        assert Due(blocks) == Due(rest);
        SurvivorsStep(blocks, o);
      }
    }
  }

  /** A block that survives keeps its object. */
  lemma SurvivorsStep(blocks: seq<Block>, o: nat)
    requires blocks != [] && blocks[0].counter > 0
    ensures Copies(o, Survivors(blocks)) == (if blocks[0].trash == o then 1 else 0) + Copies(o, Survivors(blocks[1..]))
  {
    var b' := blocks[0].(counter := blocks[0].counter - 1);
    assert Survivors(blocks) == [b'] + Survivors(blocks[1..]);
    assert ([b'] + Survivors(blocks[1..]))[1..] == Survivors(blocks[1..]);
  }

  /** An empty destroys and keeps as many blocks as there were. */
  lemma {:induction false} EmptyConservesCount(blocks: seq<Block>)
    requires CountersInRange(blocks)
    ensures |Due(blocks)| + |Survivors(blocks)| == |blocks|
  {
    if blocks != [] {
      EmptyConservesCount(blocks[1..]);
    }
  }

  /** Blocks are handled independently: emptying a concatenation empties both parts. */
  lemma {:induction false} EmptyAppend(a: seq<Block>, b: seq<Block>)
    ensures Due(a + b) == Due(a) + Due(b)
    ensures Survivors(a + b) == Survivors(a) + Survivors(b)
  {
    if a != [] {
      assert (a + b)[1..] == a[1..] + b;
      EmptyAppend(a[1..], b);
    } else {
      assert a + b == b;
    }
  }

  /** Surviving blocks keep their relative order and everything but the counter. */
  lemma {:induction false} SurvivorsKeepOrder(blocks: seq<Block>)
    ensures Survivors(blocks) == Decremented(Pending(blocks))
  {
    if blocks != [] {
      SurvivorsKeepOrder(blocks[1..]);
      var b := blocks[0];
      if b.counter > 0 {
        var rest := Pending(blocks[1..]);
        assert Pending(blocks) == [b] + rest;
        assert ([b] + rest)[0] == b && ([b] + rest)[1..] == rest;
        calc {
          Survivors(blocks);
          [b.(counter := b.counter - 1)] + Survivors(blocks[1..]);
          [b.(counter := b.counter - 1)] + Decremented(rest);
          Decremented([b] + rest);
        }
      } else {
        assert Survivors(blocks) == Survivors(blocks[1..]);
        assert Pending(blocks) == Pending(blocks[1..]);
      }
    }
  }

  /** Survivors' counters stay within range and fall below VENOM_MAX_FRAMES_IN_FLIGHT. */
  lemma {:induction false} SurvivorsInRange(blocks: seq<Block>)
    requires CountersInRange(blocks)
    ensures forall k :: 0 <= k < |Survivors(blocks)| ==> 0 <= Survivors(blocks)[k].counter < MaxFramesInFlight
  {
    if blocks != [] {
      SurvivorsInRange(blocks[1..]);
      var b := blocks[0];
      var head: seq<Block> := if b.counter - 1 >= 0 then [b.(counter := b.counter - 1)] else [];
      var rest := Survivors(blocks[1..]);
      assert Survivors(blocks) == head + rest;
      forall k | 0 <= k < |head + rest|
        ensures 0 <= (head + rest)[k].counter < MaxFramesInFlight
      {
        if k >= |head| {
          assert (head + rest)[k] == rest[k - |head|];
        }
      }
    }
  }

  /** The blocks whose counter has not reached 0, unchanged. */
  function Pending(blocks: seq<Block>): seq<Block> {
    if blocks == [] then [] else (if blocks[0].counter > 0 then [blocks[0]] else []) + Pending(blocks[1..])
  }

  function Decremented(blocks: seq<Block>): seq<Block> {
    if blocks == [] then [] else [blocks[0].(counter := blocks[0].counter - 1)] + Decremented(blocks[1..])
  }

  /** `n` successive calls of `EmptyDeferredTrash`: what they destroy, in order, and what is left. */
  function Empties(blocks: seq<Block>, n: nat): (seq<Freed>, seq<Block>)
    decreases n
  {
    if n == 0 then ([], blocks)
    else
      var after := Empties(Survivors(blocks), n - 1);
      (Due(blocks) + after.0, after.1)
  }

  lemma {:induction false} EmptiesOfEmpty(n: nat)
    ensures Empties([], n).0 == [] && Empties([], n).1 == []
    decreases n
  {
    if n > 0 {
      assert Survivors([]) == [] && Due([]) == [];
      EmptiesOfEmpty(n - 1);
    }
  }

  /**
   * A block with counter `c` survives `c` calls of `EmptyDeferredTrash`, its counter going
   * down by one each time, and is destroyed, and removed, by the call after that.
   */
  lemma {:induction false} BlockLife(c: nat, o: nat, d: Destructor, n: nat)
    ensures n <= c ==> Empties([Block(c, o, d)], n).0 == [] && Empties([Block(c, o, d)], n).1 == [Block(c - n, o, d)]
    ensures n > c ==> Empties([Block(c, o, d)], n).0 == [Freed(o, d)] && Empties([Block(c, o, d)], n).1 == []
    decreases n
  {
    if n > 0 {
      var b := Block(c, o, d);
      assert [b][1..] == [];
      if c == 0 {
        assert Due([b]) == [Freed(o, d)];
        assert Survivors([b]) == [];
        EmptiesOfEmpty(n - 1);
      } else {
        assert Due([b]) == [];
        assert Survivors([b]) == [Block(c - 1, o, d)];
        BlockLife(c - 1, o, d, n - 1);
      }
    }
  }

  /**
   * A block added to the bin is kept through three calls of `EmptyDeferredTrash` and
   * destroyed, and removed, by the fourth.
   */
  lemma FreedOnFourthEmpty(o: nat, d: Destructor)
    ensures Empties([Block(MaxFramesInFlight, o, d)], 3).0 == []
    ensures Empties([Block(MaxFramesInFlight, o, d)], 3).1 == [Block(0, o, d)]
    ensures Empties([Block(MaxFramesInFlight, o, d)], 4).0 == [Freed(o, d)]
    ensures Empties([Block(MaxFramesInFlight, o, d)], 4).1 == []
  {
    BlockLife(3, o, d, 3);
    BlockLife(3, o, d, 4);
  }

  /** Emptying a bin leaves of each part what emptying that part alone would leave. */
  lemma {:induction false} EmptiesAppendLeft(a: seq<Block>, b: seq<Block>, n: nat)
    ensures Empties(a + b, n).1 == Empties(a, n).1 + Empties(b, n).1
    decreases n
  {
    if n > 0 {
      EmptyAppend(a, b);
      EmptiesAppendLeft(Survivors(a), Survivors(b), n - 1);
    }
  }

  /** Emptying a bin destroys each object as often as emptying the parts alone would. */
  lemma {:induction false} EmptiesAppendFreed(a: seq<Block>, b: seq<Block>, n: nat, o: nat)
    ensures FreedCopies(o, Empties(a + b, n).0) == FreedCopies(o, Empties(a, n).0) + FreedCopies(o, Empties(b, n).0)
    decreases n
  {
    if n > 0 {
      EmptyAppend(a, b);
      EmptiesAppendFreed(Survivors(a), Survivors(b), n - 1, o);
      var later := Empties(Survivors(a) + Survivors(b), n - 1).0;
      FreedCopiesAppend(o, Due(a) + Due(b), later);
      FreedCopiesAppend(o, Due(a), Due(b));
      FreedCopiesAppend(o, Due(a), Empties(Survivors(a), n - 1).0);
      FreedCopiesAppend(o, Due(b), Empties(Survivors(b), n - 1).0);
    }
  }

  /**
   * `DeferredTrashBin::s_instance` and the one bin it points to, plus the destructor
   * calls made so far.
   */
  class TrashRuntime {
    var hasInstance: bool
    var trash: seq<Block>
    var freed: seq<Freed>

    ghost predicate Valid()
      reads this
    {
      CountersInRange(trash) && (!hasInstance ==> trash == [])
    }

    /** Before any bin exists: `s_instance` is null. */
    constructor ()
      ensures Valid()
      ensures !hasInstance && trash == [] && freed == []
    {
      hasInstance := false;
      trash := [];
      freed := [];
    }

    /** `DeferredTrashBin()`: the new, empty bin becomes the instance. */
    method CreateBin()
      modifies this
      ensures Valid()
      ensures hasInstance && trash == [] && freed == old(freed)
    {
      hasInstance := true;
      trash := [];
    }

    /** `AddDeferredTrash(trash)`: null is ignored; without a bin the object is deleted at once. */
    method AddDeferredTrash(p: Ptr)
      requires Valid()
      modifies this
      ensures Valid() && hasInstance == old(hasInstance)
      ensures p.Null? ==> trash == old(trash) && freed == old(freed)
      ensures p.Ptr? && hasInstance ==> trash == old(trash) + [Block(MaxFramesInFlight, p.address, Delete)] && freed == old(freed)
      ensures p.Ptr? && !hasInstance ==> trash == old(trash) && freed == old(freed) + [Freed(p.address, Delete)]
    {
      if p.Null? {
        return;
      }
      if hasInstance {
        trash := trash + [Block(MaxFramesInFlight, p.address, Delete)];
      } else {
        freed := freed + [Freed(p.address, Delete)];
      }
    }

    /** The overload with a destructor: the destructor is kept only in the bin; without a bin it is `delete`. */
    method AddDeferredTrashWith(p: Ptr, destructor: nat)
      requires Valid()
      modifies this
      ensures Valid() && hasInstance == old(hasInstance)
      ensures p.Null? ==> trash == old(trash) && freed == old(freed)
      ensures p.Ptr? && hasInstance ==> trash == old(trash) + [Block(MaxFramesInFlight, p.address, Custom(destructor))] && freed == old(freed)
      ensures p.Ptr? && !hasInstance ==> trash == old(trash) && freed == old(freed) + [Freed(p.address, Delete)]
    {
      if p.Null? {
        return;
      }
      if hasInstance {
        trash := trash + [Block(MaxFramesInFlight, p.address, Custom(destructor))];
      } else {
        freed := freed + [Freed(p.address, Delete)];
      }
    }

    /** `EmptyDeferredTrash`: destroy the blocks at 0, decrement every counter, erase the negative ones. */
    method EmptyDeferredTrash()
      requires Valid() && hasInstance
      modifies this
      ensures Valid() && hasInstance
      ensures freed == old(freed) + Due(old(trash))
      ensures trash == Survivors(old(trash))
    {
      ghost var blocks := trash;
      var bin := trash;
      var log := freed;
      var i := 0;
      while i < |bin|
        invariant unchanged(this)
        invariant 0 <= i <= |bin| == |blocks|
        invariant log == old(freed) + Due(blocks[..i])
        invariant forall k :: 0 <= k < i ==> bin[k] == blocks[k].(counter := blocks[k].counter - 1)
        invariant bin[i..] == blocks[i..]
      {
        if bin[i].counter == 0 {
          log := log + [FreedOf(bin[i])];
        }
        DueSnoc(blocks, i);
        bin := bin[i := bin[i].(counter := bin[i].counter - 1)];
        i := i + 1;
      }
      var kept: seq<Block> := [];
      var j := 0;
      while j < |bin|
        invariant unchanged(this)
        invariant 0 <= j <= |bin|
        invariant kept == Survivors(blocks[..j])
      {
        SurvivorsSnoc(blocks, j);
        if bin[j].counter >= 0 {
          kept := kept + [bin[j]];
        }
        j := j + 1;
      }
      assert blocks[..|blocks|] == blocks;
      SurvivorsInRange(blocks);
      trash := kept;
      freed := log;
    }

    /** `~DeferredTrashBin()`: `s_instance` is nulled and every remaining block destroyed, in order. */
    method DestroyBin()
      requires Valid() && hasInstance
      modifies this
      ensures Valid() && !hasInstance && trash == []
      ensures freed == old(freed) + AllFreed(old(trash))
    {
      var bin := trash;
      var log := freed;
      var i := 0;
      while i < |bin|
        invariant unchanged(this)
        invariant 0 <= i <= |bin|
        invariant log == old(freed) + AllFreed(bin[..i])
      {
        AllFreedSnoc(bin, i);
        log := log + [FreedOf(bin[i])];
        i := i + 1;
      }
      assert bin[..|bin|] == bin;
      hasInstance := false;
      freed := log;
      trash := [];
    }
  }

  lemma {:induction false} DueSnoc(blocks: seq<Block>, i: nat)
    requires i < |blocks|
    ensures Due(blocks[..i + 1]) == Due(blocks[..i]) + (if blocks[i].counter == 0 then [FreedOf(blocks[i])] else [])
  {
    assert blocks[..i + 1] == blocks[..i] + [blocks[i]];
    EmptyAppend(blocks[..i], [blocks[i]]);
  }

  lemma {:induction false} SurvivorsSnoc(blocks: seq<Block>, i: nat)
    requires i < |blocks|
    ensures Survivors(blocks[..i + 1]) ==
      Survivors(blocks[..i]) + (if blocks[i].counter - 1 >= 0 then [blocks[i].(counter := blocks[i].counter - 1)] else [])
  {
    assert blocks[..i + 1] == blocks[..i] + [blocks[i]];
    EmptyAppend(blocks[..i], [blocks[i]]);
  }

  lemma {:induction false} AllFreedSnoc(blocks: seq<Block>, i: nat)
    requires i < |blocks|
    ensures AllFreed(blocks[..i + 1]) == AllFreed(blocks[..i]) + [FreedOf(blocks[i])]
  {
    assert blocks[..i + 1] == blocks[..i] + [blocks[i]];
    AllFreedAppend(blocks[..i], [blocks[i]]);
  }

  lemma {:induction false} AllFreedAppend(a: seq<Block>, b: seq<Block>)
    ensures AllFreed(a + b) == AllFreed(a) + AllFreed(b)
  {
    if a != [] {
      assert (a + b)[1..] == a[1..] + b;
      AllFreedAppend(a[1..], b);
    } else {
      assert a + b == b;
    }
  }

  /** The bin's destructor destroys each remaining object as often as the bin holds it. */
  lemma {:induction false} AllFreedOnce(blocks: seq<Block>, o: nat)
    ensures FreedCopies(o, AllFreed(blocks)) == Copies(o, blocks)
  {
    if blocks != [] {
      AllFreedOnce(blocks[1..], o);
      assert AllFreed(blocks)[1..] == AllFreed(blocks[1..]);
    }
  }

  /** `DeferredTrash<T>`: a pointer that goes to the bin when it is dropped or replaced. */
  class DeferredPtr {
    var held: Ptr

    constructor (p: Ptr)
      ensures held == p
    {
      held := p;
    }

    /** `Reset(trash)`: the old pointer goes to the bin, then the new one is held. */
    method Reset(runtime: TrashRuntime, p: Ptr)
      requires runtime.Valid()
      modifies this, runtime
      ensures held == p
      ensures runtime.Valid() && runtime.hasInstance == old(runtime.hasInstance)
      ensures old(held).Null? ==> runtime.trash == old(runtime.trash) && runtime.freed == old(runtime.freed)
      ensures old(held).Ptr? && runtime.hasInstance ==>
        runtime.trash == old(runtime.trash) + [Block(MaxFramesInFlight, old(held).address, Delete)] && runtime.freed == old(runtime.freed)
      ensures old(held).Ptr? && !runtime.hasInstance ==>
        runtime.trash == old(runtime.trash) && runtime.freed == old(runtime.freed) + [Freed(old(held).address, Delete)]
    {
      runtime.AddDeferredTrash(held);
      held := p;
    }

    /** `~DeferredTrash()`: the held pointer goes to the bin. */
    method Drop(runtime: TrashRuntime)
      requires runtime.Valid()
      modifies runtime
      ensures runtime.Valid() && runtime.hasInstance == old(runtime.hasInstance)
      ensures held.Null? ==> runtime.trash == old(runtime.trash) && runtime.freed == old(runtime.freed)
      ensures held.Ptr? && runtime.hasInstance ==>
        runtime.trash == old(runtime.trash) + [Block(MaxFramesInFlight, held.address, Delete)] && runtime.freed == old(runtime.freed)
      ensures held.Ptr? && !runtime.hasInstance ==>
        runtime.trash == old(runtime.trash) && runtime.freed == old(runtime.freed) + [Freed(held.address, Delete)]
    {
      runtime.AddDeferredTrash(held);
    }
  }
}
