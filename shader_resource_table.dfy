/**
 * Id allocation in lib/common/src/ShaderResourceTable.cc: the model-matrix buffer
 * manager and the bindless texture id manager both keep a `std::stack<int>` of free
 * ids. A stack is a sequence whose last element is the top.
 */
module ShaderResourceTable {
  const MaxEntities: nat := 65536
  const TwoTo31: int := 0x8000_0000
  const TwoTo32: int := 0x1_0000_0000

  /** The stack after pushing n - 1, n - 2, ..., 0: id 0 is on top. */
  function Countdown(n: nat): seq<int> {
    seq(n, k requires 0 <= k < n => n - 1 - k)
  }

  /** `k` successive pops: the ids handed out, in order, and the stack left behind. */
  function AcquireRun(s: seq<int>, k: nat): (seq<int>, seq<int>)
    requires k <= |s|
  {
    if k == 0 then ([], s)
    else
      var (ids, rest) := AcquireRun(s[..|s| - 1], k - 1);
      ([s[|s| - 1]] + ids, rest)
  }

  /** Pops take ids from the top down, and leave the bottom of the stack as it was. */
  lemma {:induction false} AcquireRunTakesFromTop(s: seq<int>, k: nat)
    requires k <= |s|
    ensures |AcquireRun(s, k).0| == k
    ensures forall j :: 0 <= j < k ==> AcquireRun(s, k).0[j] == s[|s| - 1 - j]
    ensures AcquireRun(s, k).1 == s[..|s| - k]
  {
    if k > 0 {
      var t := s[..|s| - 1];
      AcquireRunTakesFromTop(t, k - 1);
      assert t[..|t| - (k - 1)] == s[..|s| - k];
      forall j | 1 <= j < k
        ensures AcquireRun(s, k).0[j] == s[|s| - 1 - j]
      {
        assert AcquireRun(s, k).0[j] == AcquireRun(t, k - 1).0[j - 1];
      }
    }
  }

  /** A freshly filled stack hands out 0, 1, 2, ... in ascending order. */
  lemma FreshHandsOutAscending(n: nat, k: nat)
    requires k <= n
    ensures AcquireRun(Countdown(n), k).0 == seq(k, j requires 0 <= j < k => j)
    ensures AcquireRun(Countdown(n), k).1 == Countdown(n)[..n - k]
  {
    AcquireRunTakesFromTop(Countdown(n), k);
  }

  /** Released ids come back last-in first-out, before any id that was already free. */
  lemma ReleasedComeBackFirst(s: seq<int>, released: seq<int>)
    ensures var k := |released|;
      && |AcquireRun(s + released, k).0| == k
      && (forall j :: 0 <= j < k ==> AcquireRun(s + released, k).0[j] == released[k - 1 - j])
      && AcquireRun(s + released, k).1 == s
  {
    AcquireRunTakesFromTop(s + released, |released|);
    assert (s + released)[..|s|] == s;
  }

  /** Nothing stops an id from being released twice; it is then handed out twice. */
  lemma DoubleReleaseHandsOutTwice(s: seq<int>, id: int)
    ensures AcquireRun(s + [id] + [id], 2).0 == [id, id]
  {
    ReleasedComeBackFirst(s, [id, id]);
    assert s + [id] + [id] == s + [id, id];
  }

  /** The `ExternalModelMatrixManager`: ids are indices into the model-matrix array. */
  class ModelMatrixManager {
    var freeBuffers: seq<int>

    /** Every free id indexes the model-matrix array. */
    ghost predicate Valid()
      reads this
    {
      forall k :: 0 <= k < |freeBuffers| ==> 0 <= freeBuffers[k] < MaxEntities
    }

    /** Pushes VENOM_MAX_ENTITIES - 1 down to 0. */
    constructor ()
      ensures Valid()
      ensures freeBuffers == Countdown(MaxEntities)
    {
      var stack: seq<int> := [];
      var i: int := MaxEntities - 1;
      while i >= 0
        invariant -1 <= i < MaxEntities
        invariant stack == seq(MaxEntities - 1 - i, k requires 0 <= k < MaxEntities - 1 - i => MaxEntities - 1 - k)
      {
        stack := stack + [i];
        i := i - 1;
      }
      freeBuffers := stack;
    }

    /** `GetModelMatrixBuffer`: the matrix at the returned index; the stack must not be empty. */
    method GetModelMatrixBuffer() returns (id: int)
      requires Valid() && freeBuffers != []
      modifies this
      ensures Valid()
      ensures 0 <= id < MaxEntities
      ensures (id, freeBuffers) == (old(freeBuffers)[|old(freeBuffers)| - 1], old(freeBuffers)[..|old(freeBuffers)| - 1])
    {
      id := freeBuffers[|freeBuffers| - 1];
      freeBuffers := freeBuffers[..|freeBuffers| - 1];
    }

    /**
     * `ReleaseModelMatrixBuffer`: the id is the pointer's distance from the array start, so the
     * pointer must point into the array; the id is pushed even if it is already free.
     */
    method ReleaseModelMatrixBuffer(id: int)
      requires Valid() && 0 <= id < MaxEntities
      modifies this
      ensures Valid()
      ensures freeBuffers == old(freeBuffers) + [id]
    {
      freeBuffers := freeBuffers + [id];
    }
  }

  /** Conversion of a 32-bit unsigned value to `int` (two's complement, modulo 2^32). */
  function ToInt32(x: nat): (r: int)
    requires x < TwoTo32
    ensures -TwoTo31 <= r < TwoTo31
    ensures r == x || r == x - TwoTo32
  {
    if x < TwoTo31 then x else x - TwoTo32
  }

  /** `maxTextures - 1` in `uint32_t`: 0 wraps to 2^32 - 1. */
  function PredUint32(x: nat): (r: nat)
    requires x < TwoTo32
    ensures r < TwoTo32
    ensures x > 0 ==> r == x - 1
  {
    if x == 0 then TwoTo32 - 1 else x - 1
  }

  /** The free stack `SetMaxTextures` builds as written: `int i = maxTextures - 1` counting down to 0. */
  function FreeTexturesAsWritten(maxTextures: nat): seq<int>
    requires maxTextures < TwoTo32
  {
    var start := ToInt32(PredUint32(maxTextures));
    if start < 0 then [] else Countdown(start + 1)
  }

  /** Below 2^31 the as-written loop gives exactly the ids 0 .. maxTextures - 1. */
  lemma AsWrittenUpToTwoTo31(maxTextures: nat)
    requires maxTextures <= TwoTo31
    ensures FreeTexturesAsWritten(maxTextures) == Countdown(maxTextures)
  {
  }

  /** A limit above 2^31 becomes a negative start index: no texture id is free at all. */
  lemma AsWrittenLosesLargeLimits(maxTextures: nat)
    requires TwoTo31 < maxTextures < TwoTo32
    ensures FreeTexturesAsWritten(maxTextures) == []
    ensures |Countdown(maxTextures)| > 0
  {
  }

  /** The `BindlessTexturesIdManager` together with `ShaderResourceTable::__maxTextures`. */
  class TextureIdManager {
    var freeBuffers: seq<int>
    var maxTextures: int

    constructor ()
      ensures freeBuffers == [] && maxTextures == 0
    {
      freeBuffers := [];
      maxTextures := 0;
    }

    /** `BindTexture`: pops the top id; asserts that `SetMaxTextures` left one. */
    method GetTextureId() returns (id: int)
      requires freeBuffers != []
      modifies this`freeBuffers
      ensures (id, freeBuffers) == (old(freeBuffers)[|old(freeBuffers)| - 1], old(freeBuffers)[..|old(freeBuffers)| - 1])
    {
      id := freeBuffers[|freeBuffers| - 1];
      freeBuffers := freeBuffers[..|freeBuffers| - 1];
    }

    /** `UnbindTexture`: pushes the id without checking that it was in use. */
    method ReleaseTexture(id: int)
      modifies this`freeBuffers
      ensures freeBuffers == old(freeBuffers) + [id]
    {
      freeBuffers := freeBuffers + [id];
    }

    /** `SetMaxTextures` as written: the count-down index is a signed `int`, and so is the record. */
    method SetMaxTexturesAsWritten(limit: nat)
      requires limit < TwoTo32
      modifies this
      ensures freeBuffers == FreeTexturesAsWritten(limit)
      ensures maxTextures == ToInt32(limit)
    {
      freeBuffers := [];
      var start := ToInt32(PredUint32(limit));
      var i := start;
      while i >= 0
        invariant i <= start && (start >= 0 ==> -1 <= i)
        invariant freeBuffers == if start < 0 then [] else seq(start - i, k requires 0 <= k < start - i => start - k)
      {
        freeBuffers := freeBuffers + [i];
        i := i - 1;
      }
      maxTextures := ToInt32(limit);
    }

    /** `SetMaxTextures` with an index wide enough for every `uint32_t` limit. */
    method SetMaxTextures(limit: nat)
      requires limit < TwoTo32
      modifies this
      ensures freeBuffers == Countdown(limit)
      ensures maxTextures == limit
    {
      freeBuffers := [];
      var i: int := limit - 1;
      while i >= 0
        invariant -1 <= i < limit
        invariant freeBuffers == seq(limit - 1 - i, k requires 0 <= k < limit - 1 - i => limit - 1 - k)
      {
        freeBuffers := freeBuffers + [i];
        i := i - 1;
      }
      maxTextures := limit;
    }
  }

  /** After `SetMaxTextures`, the free ids are exactly 0 .. limit - 1, with 0 on top. */
  lemma SetMaxTexturesExactly(limit: nat)
    ensures forall id :: id in Countdown(limit) <==> 0 <= id < limit
    ensures limit > 0 ==> Countdown(limit)[limit - 1] == 0
  {
    forall id | 0 <= id < limit
      ensures id in Countdown(limit)
    {
      assert Countdown(limit)[limit - 1 - id] == id;
    }
  }
}
