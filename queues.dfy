/**
 * lib/vulkan/src/QueueFamily.cc: the device's queue families and, for each
 * capability, the ascending list of family indices that offer it.
 */
module QueueFamily {
  import opened VenomError

  /** The `VkQueueFlagBits` the engine maps; a flags word is the set of bits it has. */
  datatype QueueFlag = GraphicsBit | ComputeBit | TransferBit | SparseBindingBit | ProtectedBit | VideoDecodeBit | VideoEncodeBit

  /** The part of `VkQueueFamilyProperties` the engine reads. */
  datatype Properties = Properties(queueFlags: set<QueueFlag>, queueCount: nat)

  predicate Has(p: Properties, bit: QueueFlag) { bit in p.queueFlags }

  /** The capabilities a queue can be requested for, in the order the queue manager serves them. */
  datatype Feature = Graphics | Compute | Present | Transfer | SparseBinding | Protected | VideoDecode | VideoEncode

  /** One value per feature, as the settings struct and the queue manager's members hold them. */
  datatype PerFeature<T> = PerFeature(graphics: T, compute: T, present: T, transfer: T,
                                      sparseBinding: T, protectedMemory: T, videoDecode: T, videoEncode: T)

  function Get<T>(p: PerFeature<T>, f: Feature): T {
    match f
    case Graphics => p.graphics
    case Compute => p.compute
    case Present => p.present
    case Transfer => p.transfer
    case SparseBinding => p.sparseBinding
    case Protected => p.protectedMemory
    case VideoDecode => p.videoDecode
    case VideoEncode => p.videoEncode
  }

  function With<T>(p: PerFeature<T>, f: Feature, v: T): PerFeature<T> {
    match f
    case Graphics => p.(graphics := v)
    case Compute => p.(compute := v)
    case Present => p.(present := v)
    case Transfer => p.(transfer := v)
    case SparseBinding => p.(sparseBinding := v)
    case Protected => p.(protectedMemory := v)
    case VideoDecode => p.(videoDecode := v)
    case VideoEncode => p.(videoEncode := v)
  }

  /** `With` changes the value of `f` and no other. */
  lemma WithChangesOne<T>(p: PerFeature<T>, f: Feature, v: T)
    ensures Get(With(p, f, v), f) == v
    ensures forall h :: h != f ==> Get(With(p, f, v), h) == Get(p, h)
  {
  }

  /** The indices, in ascending order, at which `flags` holds. */
  function Where(flags: seq<bool>): seq<nat> {
    if flags == [] then []
    else Where(flags[..|flags| - 1]) + (if flags[|flags| - 1] then [|flags| - 1] else [])
  }

  predicate StrictlyIncreasing(s: seq<nat>) {
    forall j, k :: 0 <= j < k < |s| ==> s[j] < s[k]
  }

  /** `Where` lists exactly the indices that hold. */
  lemma {:induction false} WhereMembers(flags: seq<bool>)
    ensures forall i: nat :: i in Where(flags) <==> i < |flags| && flags[i]
  {
    if flags != [] {
      var init := flags[..|flags| - 1];
      WhereMembers(init);
      var last: seq<nat> := if flags[|flags| - 1] then [|flags| - 1] else [];
      assert Where(flags) == Where(init) + last;
      forall i: nat
        ensures i in Where(flags) <==> i < |flags| && flags[i]
      {
        if i < |init| {
          assert init[i] == flags[i];
        }
      }
    }
  }

  /** `Where` lists the indices once each, in ascending order. */
  lemma {:induction false} WhereIncreasing(flags: seq<bool>)
    ensures StrictlyIncreasing(Where(flags))
  {
    if flags != [] {
      var init := flags[..|flags| - 1];
      WhereIncreasing(init);
      WhereMembers(init);
      var w := Where(init);
      assert forall j :: 0 <= j < |w| ==> w[j] in w;
    }
  }

  lemma WhereExactly(flags: seq<bool>)
    ensures forall i: nat :: i in Where(flags) <==> i < |flags| && flags[i]
    ensures StrictlyIncreasing(Where(flags))
  {
    WhereMembers(flags);
    WhereIncreasing(flags);
  }

  /** One more step of a scan over a prefix. */
  lemma WhereSnoc(flags: seq<bool>, i: nat)
    requires i < |flags|
    ensures Where(flags[..i + 1]) == Where(flags[..i]) + (if flags[i] then [i] else [])
  {
    assert flags[..i + 1][..i] == flags[..i];
  }

  /** Whether each family has `bit` set. */
  function Bits(families: seq<Properties>, bit: QueueFlag): (r: seq<bool>)
    ensures |r| == |families| && forall i :: 0 <= i < |r| ==> r[i] == Has(families[i], bit)
  {
    seq(|families|, i requires 0 <= i < |families| => Has(families[i], bit))
  }

  /** The answer of `vkGetPhysicalDeviceSurfaceSupportKHR` for one family. */
  datatype SurfaceSupport = QueryFailed | Answered(presentSupport: bool)

  /** The index of the first failed query, or the number of families when none failed. */
  function FirstFailure(answers: seq<SurfaceSupport>): (r: nat)
    ensures r <= |answers|
    ensures r < |answers| ==> answers[r].QueryFailed?
    ensures forall j :: 0 <= j < r ==> answers[j].Answered?
  {
    if answers == [] || answers[0].QueryFailed? then 0 else 1 + FirstFailure(answers[1..])
  }

  function PresentFlags(answers: seq<SurfaceSupport>): (r: seq<bool>)
    ensures |r| == |answers| && forall i :: 0 <= i < |r| ==> (r[i] <==> answers[i] == Answered(true))
  {
    seq(|answers|, i requires 0 <= i < |answers| => answers[i] == Answered(true))
  }

  /** `MappedQueueFamilies`. */
  class MappedQueueFamilies {
    var families: seq<Properties>
    var graphicsIndices: seq<nat>
    var computeIndices: seq<nat>
    var transferIndices: seq<nat>
    var sparseBindingIndices: seq<nat>
    var protectedIndices: seq<nat>
    var videoDecodeIndices: seq<nat>
    var videoEncodeIndices: seq<nat>
    var presentIndices: seq<nat>

    /** The family lists by feature, as the queue manager looks them up. */
    function Lists(): PerFeature<seq<nat>>
      reads this
    {
      PerFeature(graphicsIndices, computeIndices, presentIndices, transferIndices,
                 sparseBindingIndices, protectedIndices, videoDecodeIndices, videoEncodeIndices)
    }

    /** Takes the families and files each index under every capability its flags name. */
    constructor (queueFamilies: seq<Properties>)
      ensures families == queueFamilies
      ensures graphicsIndices == Where(Bits(queueFamilies, GraphicsBit))
      ensures computeIndices == Where(Bits(queueFamilies, ComputeBit))
      ensures transferIndices == Where(Bits(queueFamilies, TransferBit))
      ensures sparseBindingIndices == Where(Bits(queueFamilies, SparseBindingBit))
      ensures protectedIndices == Where(Bits(queueFamilies, ProtectedBit))
      ensures videoDecodeIndices == Where(Bits(queueFamilies, VideoDecodeBit))
      ensures videoEncodeIndices == Where(Bits(queueFamilies, VideoEncodeBit))
      ensures presentIndices == []
    {
      var g, c, t, s, p, d, e := [], [], [], [], [], [], [];
      var i := 0;
      while i < |queueFamilies|
        invariant 0 <= i <= |queueFamilies|
        invariant g == Where(Bits(queueFamilies, GraphicsBit)[..i])
        invariant c == Where(Bits(queueFamilies, ComputeBit)[..i])
        invariant t == Where(Bits(queueFamilies, TransferBit)[..i])
        invariant s == Where(Bits(queueFamilies, SparseBindingBit)[..i])
        invariant p == Where(Bits(queueFamilies, ProtectedBit)[..i])
        invariant d == Where(Bits(queueFamilies, VideoDecodeBit)[..i])
        invariant e == Where(Bits(queueFamilies, VideoEncodeBit)[..i])
      {
        var family := queueFamilies[i];
        WhereSnoc(Bits(queueFamilies, GraphicsBit), i);
        WhereSnoc(Bits(queueFamilies, ComputeBit), i);
        WhereSnoc(Bits(queueFamilies, TransferBit), i);
        WhereSnoc(Bits(queueFamilies, SparseBindingBit), i);
        WhereSnoc(Bits(queueFamilies, ProtectedBit), i);
        WhereSnoc(Bits(queueFamilies, VideoDecodeBit), i);
        WhereSnoc(Bits(queueFamilies, VideoEncodeBit), i);
        g := g + if Has(family, GraphicsBit) then [i] else [];
        c := c + if Has(family, ComputeBit) then [i] else [];
        t := t + if Has(family, TransferBit) then [i] else [];
        s := s + if Has(family, SparseBindingBit) then [i] else [];
        p := p + if Has(family, ProtectedBit) then [i] else [];
        d := d + if Has(family, VideoDecodeBit) then [i] else [];
        e := e + if Has(family, VideoEncodeBit) then [i] else [];
        i := i + 1;
      }
      assert Bits(queueFamilies, GraphicsBit)[..i] == Bits(queueFamilies, GraphicsBit);
      assert Bits(queueFamilies, ComputeBit)[..i] == Bits(queueFamilies, ComputeBit);
      assert Bits(queueFamilies, TransferBit)[..i] == Bits(queueFamilies, TransferBit);
      assert Bits(queueFamilies, SparseBindingBit)[..i] == Bits(queueFamilies, SparseBindingBit);
      assert Bits(queueFamilies, ProtectedBit)[..i] == Bits(queueFamilies, ProtectedBit);
      assert Bits(queueFamilies, VideoDecodeBit)[..i] == Bits(queueFamilies, VideoDecodeBit);
      assert Bits(queueFamilies, VideoEncodeBit)[..i] == Bits(queueFamilies, VideoEncodeBit);
      families := queueFamilies;
      graphicsIndices, computeIndices, transferIndices := g, c, t;
      sparseBindingIndices, protectedIndices := s, p;
      videoDecodeIndices, videoEncodeIndices := d, e;
      presentIndices := [];
    }

    /**
     * `SetPresentQueueFamilyIndices`, given the driver's answer for each family: appends
     * the supporting families in order and stops at the first failed query.
     */
    method SetPresentQueueFamilyIndices(answers: seq<SurfaceSupport>) returns (err: Error)
      requires |answers| == |families|
      modifies this`presentIndices
      ensures presentIndices == old(presentIndices) + Where(PresentFlags(answers)[..FirstFailure(answers)])
      ensures err == if FirstFailure(answers) < |answers| then InitializationFailed else Success
    {
      var i := 0;
      while i < |families|
        invariant 0 <= i <= |families|
        invariant forall j :: 0 <= j < i ==> answers[j].Answered?
        invariant presentIndices == old(presentIndices) + Where(PresentFlags(answers)[..i])
      {
        if answers[i].QueryFailed? {
          assert FirstFailure(answers) == i;
          return InitializationFailed;
        }
        WhereSnoc(PresentFlags(answers), i);
        if answers[i].presentSupport {
          presentIndices := presentIndices + [i];
        }
        i := i + 1;
      }
      assert FirstFailure(answers) == |answers|;
      return Success;
    }
  }

  /** Family `i` is in a capability's list iff its flags have that bit; the list ascends and stays below the family count. */
  lemma CapabilityListExactly(families: seq<Properties>, bit: QueueFlag)
    ensures forall i: nat :: i in Where(Bits(families, bit)) <==> i < |families| && bit in families[i].queueFlags
    ensures StrictlyIncreasing(Where(Bits(families, bit)))
  {
    WhereExactly(Bits(families, bit));
  }

  /** After a query that did not fail, the present list gains exactly the families that can present, in ascending order. */
  lemma PresentListExactly(answers: seq<SurfaceSupport>)
    requires FirstFailure(answers) == |answers|
    ensures forall i: nat :: i in Where(PresentFlags(answers)[..FirstFailure(answers)]) <==> i < |answers| && answers[i] == Answered(true)
    ensures StrictlyIncreasing(Where(PresentFlags(answers)[..FirstFailure(answers)]))
  {
    assert PresentFlags(answers)[..FirstFailure(answers)] == PresentFlags(answers);
    WhereExactly(PresentFlags(answers));
  }
}

/**
 * lib/vulkan/src/QueueManager.cc: how many queues of each family the logical device
 * is created with, which queue each feature gets, and the buffer sharing modes.
 */
module QueueManager {
  import opened VenomError
  import opened QueueFamily

  const Uint32Max: int := 0xFFFF_FFFF

  /** A `Queue`: family and queue index, both UINT32_MAX until assigned. */
  datatype Queue = Queue(familyIndex: int, queueIndex: int)

  const Unassigned := Queue(Uint32Max, Uint32Max)

  /** `InitVkQueue` fetches a device queue only for an assigned queue. */
  predicate Fetchable(q: Queue) {
    q.familyIndex != Uint32Max && q.queueIndex != Uint32Max
  }

  /** The part of `VkDeviceQueueCreateInfo` the manager fills in. */
  datatype CreateInfo = CreateInfo(familyIndex: nat, queueCount: nat)

  /** One family's create info and the priorities of its queues. */
  datatype Slot = Slot(info: CreateInfo, priorities: seq<real>)

  /** The queue counts the features still ask for and the queue each feature was given. */
  datatype Allocation = Allocation(requested: PerFeature<nat>, queues: PerFeature<Queue>)

  /** All queues still asked for. */
  function Total(p: PerFeature<nat>): nat {
    p.graphics + p.compute + p.present + p.transfer + p.sparseBinding + p.protectedMemory + p.videoDecode + p.videoEncode
  }

  /** No feature asks for more in `a` than in `b`. */
  predicate NoMoreThan(a: PerFeature<nat>, b: PerFeature<nat>) {
    && a.graphics <= b.graphics && a.compute <= b.compute && a.present <= b.present && a.transfer <= b.transfer
    && a.sparseBinding <= b.sparseBinding && a.protectedMemory <= b.protectedMemory
    && a.videoDecode <= b.videoDecode && a.videoEncode <= b.videoEncode
  }

  lemma NoMoreThanMeans(a: PerFeature<nat>, b: PerFeature<nat>)
    ensures NoMoreThan(a, b) <==> forall f :: Get(a, f) <= Get(b, f)
  {
    if forall f :: Get(a, f) <= Get(b, f) {
      assert Get(a, Graphics) <= Get(b, Graphics) && Get(a, Compute) <= Get(b, Compute);
      assert Get(a, Present) <= Get(b, Present) && Get(a, Transfer) <= Get(b, Transfer);
      assert Get(a, SparseBinding) <= Get(b, SparseBinding) && Get(a, Protected) <= Get(b, Protected);
      assert Get(a, VideoDecode) <= Get(b, VideoDecode) && Get(a, VideoEncode) <= Get(b, VideoEncode);
    }
  }

  function Min(a: nat, b: nat): nat { if a <= b then a else b }

  function Repeat(x: real, n: nat): (r: seq<real>)
    ensures |r| == n && forall k :: 0 <= k < n ==> r[k] == x
  {
    if n == 0 then [] else Repeat(x, n - 1) + [x]
  }

  /**
   * How many queues `__TryAddQueueCreateInfo` grants a feature in a family: none unless
   * the feature asks and the family is in its list, and never beyond the family's maximum.
   */
  function Granted(count: nat, used: nat, maxCount: nat, listed: bool): (g: nat)
    requires used <= maxCount
    ensures g <= count && used + g <= maxCount
    ensures g == 0 <==> count == 0 || !listed || used == maxCount
    ensures listed ==> g == count || used + g == maxCount
  {
    if count == 0 || !listed then 0 else Min(count, maxCount - used)
  }

  /** The family being filled and the features' state while its offers are made. */
  datatype Progress = Progress(slot: Slot, alloc: Allocation)

  /** The effect of offering one family's remaining queues to feature `f`. */
  function Offer(st: Progress, f: Feature, maxCount: nat, prio: PerFeature<real>, lists: PerFeature<seq<nat>>): (r: Progress)
    requires st.slot.info.queueCount <= maxCount
    ensures r.slot.info.familyIndex == st.slot.info.familyIndex && st.slot.info.queueCount <= r.slot.info.queueCount <= maxCount
  {
    var info := st.slot.info;
    var g := Granted(Get(st.alloc.requested, f), info.queueCount, maxCount, info.familyIndex in Get(lists, f));
    if g == 0 then st
    else
      Progress(
        Slot(info.(queueCount := info.queueCount + g), st.slot.priorities + Repeat(Get(prio, f), g)),
        Allocation(With(st.alloc.requested, f, Get(st.alloc.requested, f) - g), With(st.alloc.queues, f, Queue(info.familyIndex, info.queueCount))))
  }

  /**
   * `__TryAddQueueCreateInfo`'s contract: the request drops by exactly the number of queues
   * granted, the priorities grow by as many copies of the feature's priority, the queue
   * index is the family's count before the grant, and nothing changes without a grant.
   */
  lemma OfferSpec(st: Progress, f: Feature, maxCount: nat, prio: PerFeature<real>, lists: PerFeature<seq<nat>>)
    requires st.slot.info.queueCount <= maxCount
    ensures var r := Offer(st, f, maxCount, prio, lists);
      var g := r.slot.info.queueCount - st.slot.info.queueCount;
      && g == Granted(Get(st.alloc.requested, f), st.slot.info.queueCount, maxCount, st.slot.info.familyIndex in Get(lists, f))
      && Get(r.alloc.requested, f) == Get(st.alloc.requested, f) - g
      && (forall h :: h != f ==> Get(r.alloc.requested, h) == Get(st.alloc.requested, h) && Get(r.alloc.queues, h) == Get(st.alloc.queues, h))
      && r.slot.priorities == st.slot.priorities + Repeat(Get(prio, f), g)
      && (g > 0 ==> Get(r.alloc.queues, f) == Queue(st.slot.info.familyIndex, st.slot.info.queueCount))
      && (g == 0 ==> r == st)
  {
    WithChangesOne(st.alloc.requested, f, Get(st.alloc.requested, f) - (Offer(st, f, maxCount, prio, lists).slot.info.queueCount - st.slot.info.queueCount));
    WithChangesOne(st.alloc.queues, f, Queue(st.slot.info.familyIndex, st.slot.info.queueCount));
  }

  /** A grant moves queues from a feature's request into the family, and no request grows. */
  lemma OfferConserves(st: Progress, f: Feature, maxCount: nat, prio: PerFeature<real>, lists: PerFeature<seq<nat>>)
    requires st.slot.info.queueCount <= maxCount
    ensures var r := Offer(st, f, maxCount, prio, lists);
      && r.slot.info.queueCount + Total(r.alloc.requested) == st.slot.info.queueCount + Total(st.alloc.requested)
      && NoMoreThan(r.alloc.requested, st.alloc.requested)
      && |r.slot.priorities| - |st.slot.priorities| == r.slot.info.queueCount - st.slot.info.queueCount
  {
  }

  /** The order in which `SetLogicalDeviceQueueCreateInfos` offers each family to the features. */
  const Order: seq<Feature> := [Graphics, Compute, Present, Transfer, SparseBinding, Protected, VideoDecode, VideoEncode]

  /** The offers one family makes to the features `fs`, in turn. */
  function Offers(st: Progress, fs: seq<Feature>, maxCount: nat, prio: PerFeature<real>, lists: PerFeature<seq<nat>>): (r: Progress)
    requires st.slot.info.queueCount <= maxCount
    ensures r.slot.info.familyIndex == st.slot.info.familyIndex && r.slot.info.queueCount <= maxCount
    decreases |fs|
  {
    if fs == [] then st else Offers(Offer(st, fs[0], maxCount, prio, lists), fs[1..], maxCount, prio, lists)
  }

  /**
   * One family ends with as many queues as the features' requests dropped by, no request
   * grows, and every queue has its priority.
   */
  lemma {:induction false} OffersConserve(st: Progress, fs: seq<Feature>, maxCount: nat, prio: PerFeature<real>, lists: PerFeature<seq<nat>>)
    requires st.slot.info.queueCount <= maxCount && |st.slot.priorities| == st.slot.info.queueCount
    ensures var r := Offers(st, fs, maxCount, prio, lists);
      && r.slot.info.queueCount + Total(r.alloc.requested) == st.slot.info.queueCount + Total(st.alloc.requested)
      && NoMoreThan(r.alloc.requested, st.alloc.requested)
      && |r.slot.priorities| == r.slot.info.queueCount
    decreases |fs|
  {
    if fs != [] {
      OfferConserves(st, fs[0], maxCount, prio, lists);
      OffersConserve(Offer(st, fs[0], maxCount, prio, lists), fs[1..], maxCount, prio, lists);
    }
  }

  /** The per-family maxima, `queueFamilies[i].properties.queueCount`. */
  function MaxCounts(families: seq<Properties>): (r: seq<nat>)
    ensures |r| == |families| && forall i :: 0 <= i < |r| ==> r[i] == families[i].queueCount
  {
    seq(|families|, i requires 0 <= i < |families| => families[i].queueCount)
  }

  /** Queues in all slots. */
  function SumCounts(slots: seq<Slot>): nat {
    if slots == [] then 0 else SumCounts(slots[..|slots| - 1]) + slots[|slots| - 1].info.queueCount
  }

  /** The loop over the first `n` families, each starting from an empty create info. */
  function Allocate(maxCounts: seq<nat>, n: nat, alloc: Allocation, prio: PerFeature<real>, lists: PerFeature<seq<nat>>): (r: (seq<Slot>, Allocation))
    requires n <= |maxCounts|
    ensures |r.0| == n
  {
    if n == 0 then ([], alloc)
    else
      var before := Allocate(maxCounts, n - 1, alloc, prio, lists);
      var step := Offers(Progress(Slot(CreateInfo(n - 1, 0), []), before.1), Order, maxCounts[n - 1], prio, lists);
      (before.0 + [step.slot], step.alloc)
  }

  /** The loop over all the families. */
  function Pass(families: seq<Properties>, alloc: Allocation, prio: PerFeature<real>, lists: PerFeature<seq<nat>>): (r: (seq<Slot>, Allocation))
    ensures |r.0| == |families|
  {
    Allocate(MaxCounts(families), |families|, alloc, prio, lists)
  }

  /**
   * The whole pass: family `i`'s create info names family `i`, stays within its maximum
   * and has one priority per queue.
   */
  lemma {:induction false} AllocateWithinMaxima(maxCounts: seq<nat>, n: nat, alloc: Allocation, prio: PerFeature<real>, lists: PerFeature<seq<nat>>)
    requires n <= |maxCounts|
    ensures var r := Allocate(maxCounts, n, alloc, prio, lists);
      && (forall i :: 0 <= i < n ==> r.0[i].info.familyIndex == i && r.0[i].info.queueCount <= maxCounts[i])
      && (forall i :: 0 <= i < n ==> |r.0[i].priorities| == r.0[i].info.queueCount)
  {
    hide Offers, Offer;
    if n > 0 {
      AllocateWithinMaxima(maxCounts, n - 1, alloc, prio, lists);
      var before := Allocate(maxCounts, n - 1, alloc, prio, lists);
      OffersConserve(Progress(Slot(CreateInfo(n - 1, 0), []), before.1), Order, maxCounts[n - 1], prio, lists);
    }
  }

  /**
   * Every queue created is one a feature asked for: the queues of all families plus what
   * is still requested add up to the original requests, and no request grows, so no
   * feature gets more than its settings asked for.
   */
  lemma {:induction false} AllocateConserves(maxCounts: seq<nat>, n: nat, alloc: Allocation, prio: PerFeature<real>, lists: PerFeature<seq<nat>>)
    requires n <= |maxCounts|
    ensures var r := Allocate(maxCounts, n, alloc, prio, lists);
      && SumCounts(r.0) + Total(r.1.requested) == Total(alloc.requested)
      && NoMoreThan(r.1.requested, alloc.requested)
  {
    hide Offers, Offer;
    if n > 0 {
      AllocateConserves(maxCounts, n - 1, alloc, prio, lists);
      var before := Allocate(maxCounts, n - 1, alloc, prio, lists);
      OffersConserve(Progress(Slot(CreateInfo(n - 1, 0), []), before.1), Order, maxCounts[n - 1], prio, lists);
      var r := Allocate(maxCounts, n, alloc, prio, lists);
      assert r.0[..n - 1] == before.0;
    }
  }

  /** `std::erase_if` on the create infos with no queue. */
  function KeepNonEmpty(infos: seq<CreateInfo>): (r: seq<CreateInfo>)
    ensures forall c :: c in r <==> c in infos && c.queueCount > 0
  {
    if infos == [] then []
    else (if infos[0].queueCount > 0 then [infos[0]] else []) + KeepNonEmpty(infos[1..])
  }

  function Infos(slots: seq<Slot>): (r: seq<CreateInfo>)
    ensures |r| == |slots| && forall i :: 0 <= i < |r| ==> r[i] == slots[i].info
  {
    seq(|slots|, i requires 0 <= i < |slots| => slots[i].info)
  }

  function Priorities(slots: seq<Slot>): (r: seq<seq<real>>)
    ensures |r| == |slots| && forall i :: 0 <= i < |r| ==> r[i] == slots[i].priorities
  {
    seq(|slots|, i requires 0 <= i < |slots| => slots[i].priorities)
  }

  /** After the pass every create info left has at least one queue, at most its family's maximum. */
  lemma PassLeavesNoEmptyInfo(maxCounts: seq<nat>, alloc: Allocation, prio: PerFeature<real>, lists: PerFeature<seq<nat>>)
    ensures forall c | c in KeepNonEmpty(Infos(Allocate(maxCounts, |maxCounts|, alloc, prio, lists).0)) ::
      c.familyIndex < |maxCounts| && 0 < c.queueCount <= maxCounts[c.familyIndex]
  {
    AllocateWithinMaxima(maxCounts, |maxCounts|, alloc, prio, lists);
  }

  datatype SharingMode = Exclusive | Concurrent

  datatype SharingModes = SharingModes(graphicsCompute: SharingMode, graphicsComputeTransfer: SharingMode, graphicsTransfer: SharingMode)

  const AllExclusive := SharingModes(Exclusive, Exclusive, Exclusive)

  /** The sharing-mode checks of `Init`: a mode only ever turns concurrent. */
  function InitSharing(graphics: Queue, compute: Queue, transfer: Queue, modes: SharingModes): SharingModes {
    var gc := graphics.familyIndex != compute.familyIndex;
    var gt := graphics.familyIndex != transfer.familyIndex;
    SharingModes(
      if gc then Concurrent else modes.graphicsCompute,
      if gc && gt then Concurrent else modes.graphicsComputeTransfer,
      if gt then Concurrent else modes.graphicsTransfer)
  }

  /**
   * From the constructor's exclusive modes, the graphics/compute/transfer mode is
   * concurrent only when graphics differs from both compute and transfer.
   */
  lemma SharingFromExclusive(graphics: Queue, compute: Queue, transfer: Queue)
    ensures var m := InitSharing(graphics, compute, transfer, AllExclusive);
      && (m.graphicsCompute == Concurrent <==> graphics.familyIndex != compute.familyIndex)
      && (m.graphicsComputeTransfer == Concurrent <==> graphics.familyIndex != compute.familyIndex && graphics.familyIndex != transfer.familyIndex)
      && (m.graphicsTransfer == Concurrent <==> graphics.familyIndex != transfer.familyIndex)
  {
  }

  /** `QueueManager`: the settings it consumes, the queues it hands out and its create infos. */
  class QueueManager {
    /** The queue counts of `QueueManagerSettings`, consumed as queues are granted. */
    var requested: PerFeature<nat>
    var priority: PerFeature<real>
    var queues: PerFeature<Queue>
    var createInfos: seq<CreateInfo>
    var priorities: seq<seq<real>>
    var sharing: SharingModes
    /** Whether `Init` fetched each feature's device queue. */
    var fetched: PerFeature<bool>

    constructor ()
      ensures forall f :: Get(queues, f) == Unassigned
      ensures sharing == AllExclusive && createInfos == [] && priorities == []
    {
      queues := PerFeature(Unassigned, Unassigned, Unassigned, Unassigned, Unassigned, Unassigned, Unassigned, Unassigned);
      requested := PerFeature(0, 0, 0, 0, 0, 0, 0, 0);
      priority := PerFeature(0.0, 0.0, 0.0, 0.0, 0.0, 0.0, 0.0, 0.0);
      createInfos := [];
      priorities := [];
      sharing := AllExclusive;
      fetched := PerFeature(false, false, false, false, false, false, false, false);
    }

    /** `SetQueueManagerSettings`: the requested count and priority of every feature. */
    method SetQueueManagerSettings(counts: PerFeature<nat>, priorities_: PerFeature<real>)
      modifies this`requested, this`priority
      ensures requested == counts && priority == priorities_
    {
      requested := counts;
      priority := priorities_;
    }

    /**
     * `__TryAddQueueCreateInfo` for feature `f`, the family of `slot` and the feature's
     * family list `indices`.
     */
    method TryAddQueueCreateInfo(slot: Slot, f: Feature, maxCount: nat, indices: seq<nat>, ghost lists: PerFeature<seq<nat>>) returns (next: Slot)
      requires slot.info.queueCount <= maxCount && indices == Get(lists, f)
      modifies this`requested, this`queues
      ensures Progress(next, Allocation(requested, queues)) == Offer(Progress(slot, old(Allocation(requested, queues))), f, maxCount, priority, lists)
    {
      var count := Get(requested, f);
      if count == 0 {
        return slot;
      }
      next := slot;
      if slot.info.familyIndex in indices {
        var p := Get(priority, f);
        var possible := Min(count, maxCount - slot.info.queueCount);
        next := next.(info := next.info.(queueCount := next.info.queueCount + possible));
        if possible == 0 {
          return;
        }
        requested := With(requested, f, count - possible);
        var k := 0;
        while k < possible
          invariant 0 <= k <= possible
          invariant next.info == slot.info.(queueCount := slot.info.queueCount + possible)
          invariant next.priorities == slot.priorities + Repeat(p, k)
        {
          next := next.(priorities := next.priorities + [p]);
          k := k + 1;
        }
        queues := With(queues, f, Queue(slot.info.familyIndex, next.info.queueCount - possible));
      }
    }

    /**
     * `SetLogicalDeviceQueueCreateInfos` on a manager whose create infos are still empty:
     * each family is offered to the features in turn, then the empty create infos are erased.
     */
    method SetLogicalDeviceQueueCreateInfos(families: MappedQueueFamilies) returns (err: Error)
      requires createInfos == [] && priorities == []
      modifies this
      ensures var r := Pass(families.families, old(Allocation(requested, queues)), old(priority), families.Lists());
        && createInfos == KeepNonEmpty(Infos(r.0))
        && priorities == Priorities(r.0)
        && Allocation(requested, queues) == r.1
      ensures priority == old(priority) && sharing == old(sharing) && fetched == old(fetched)
      ensures err == Success
    {
      hide *;
      var slots := OfferFamilies(families.families, families.Lists());
      createInfos := KeepNonEmpty(Infos(slots));
      priorities := Priorities(slots);
      err := Success;
    }

    /** The loop over the families. */
    method OfferFamilies(families: seq<Properties>, lists: PerFeature<seq<nat>>) returns (slots: seq<Slot>)
      modifies this`requested, this`queues
      ensures (slots, Allocation(requested, queues)) == Pass(families, old(Allocation(requested, queues)), priority, lists)
    {
      hide Offers, Offer;
      var maxCounts := MaxCounts(families);
      slots := [];
      var i := 0;
      while i < |maxCounts|
        invariant 0 <= i <= |maxCounts|
        invariant (slots, Allocation(requested, queues)) == Allocate(maxCounts, i, old(Allocation(requested, queues)), priority, lists)
      {
        var slot := OfferFamily(i, maxCounts[i], lists);
        slots := slots + [slot];
        i := i + 1;
      }
    }

    /**
     * The body of the family loop: the `__TryAddQueueCreateInfo` calls for family `i`, one
     * per feature in the order of the source.
     */
    method OfferFamily(i: nat, maxCount: nat, lists: PerFeature<seq<nat>>) returns (slot: Slot)
      modifies this`requested, this`queues
      ensures Progress(slot, Allocation(requested, queues)) == Offers(Progress(Slot(CreateInfo(i, 0), []), old(Allocation(requested, queues))), Order, maxCount, priority, lists)
    {
      hide Offer;
      slot := Slot(CreateInfo(i, 0), []);
      var k := 0;
      while k < |Order|
        invariant 0 <= k <= |Order|
        invariant slot.info.queueCount <= maxCount
        invariant Offers(Progress(slot, Allocation(requested, queues)), Order[k..], maxCount, priority, lists)
          == Offers(Progress(Slot(CreateInfo(i, 0), []), old(Allocation(requested, queues))), Order, maxCount, priority, lists)
      {
        assert Order[k..][0] == Order[k] && Order[k..][1..] == Order[k + 1..];
        slot := TryAddQueueCreateInfo(slot, Order[k], maxCount, Get(lists, Order[k]), lists);
        k := k + 1;
      }
    }

    /** `Init`: fetches the assigned queues and turns the sharing modes concurrent where families differ. */
    method Init() returns (err: Error)
      modifies this`sharing, this`fetched
      ensures forall f :: Get(fetched, f) == Fetchable(Get(queues, f))
      ensures sharing == InitSharing(queues.graphics, queues.compute, queues.transfer, old(sharing))
      ensures err == Success
    {
      fetched := PerFeature(Fetchable(queues.graphics), Fetchable(queues.compute), Fetchable(queues.present),
        Fetchable(queues.transfer), Fetchable(queues.sparseBinding), Fetchable(queues.protectedMemory),
        Fetchable(queues.videoDecode), Fetchable(queues.videoEncode));
      sharing := InitSharing(queues.graphics, queues.compute, queues.transfer, sharing);
      err := Success;
    }
  }
}
