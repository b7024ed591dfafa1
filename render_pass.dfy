/**
 * lib/common/src/RenderPass.cc: the static registry that finds the render pass drawing
 * each rendering pipeline type. The registry is an array indexed by the type; its null
 * entries are the keys missing from the map that models it here.
 */
module RenderPasses {
  import opened VenomError

  /**
   * The `RenderingPipelineType` enumerators the modelled code names; `NoType` is
   * `RenderingPipelineType::None`. The `Count` sentinel only sizes the array.
   */
  datatype RenderingPipelineType =
    | NoType
    | Skybox
    | PBRModel
    | Reflection
    | AdditiveLighting
    | AdditiveLightingMS
    | GUI
    | CascadedShadowMapping
    | Text3D
    | BRDF_LUT
    | ForwardPlusLightCulling
    | IrradianceMap

  /** Every enumerator, in the order the destructor's loop visits the array. */
  const AllTypes: seq<RenderingPipelineType> :=
    [NoType, Skybox, PBRModel, Reflection, AdditiveLighting, AdditiveLightingMS,
     GUI, CascadedShadowMapping, Text3D, BRDF_LUT, ForwardPlusLightCulling, IrradianceMap]

  lemma AllTypesListsEvery(t: RenderingPipelineType)
    ensures t in AllTypes
  {
    match t
    case NoType => assert AllTypes[0] == t;
    case Skybox => assert AllTypes[1] == t;
    case PBRModel => assert AllTypes[2] == t;
    case Reflection => assert AllTypes[3] == t;
    case AdditiveLighting => assert AllTypes[4] == t;
    case AdditiveLightingMS => assert AllTypes[5] == t;
    case GUI => assert AllTypes[6] == t;
    case CascadedShadowMapping => assert AllTypes[7] == t;
    case Text3D => assert AllTypes[8] == t;
    case BRDF_LUT => assert AllTypes[9] == t;
    case ForwardPlusLightCulling => assert AllTypes[10] == t;
    case IrradianceMap => assert AllTypes[11] == t;
  }

  /** The slots `SetRenderingType` points at a pass of type `t`. */
  function Claims(t: RenderingPipelineType): set<RenderingPipelineType> {
    match t
    case Skybox => {Skybox}
    case PBRModel => {PBRModel, Reflection, AdditiveLighting, AdditiveLightingMS}
    case GUI => {GUI}
    case CascadedShadowMapping => {CascadedShadowMapping}
    case Text3D => {Text3D}
    case _ => {}
  }

  /** A PBR model pass serves four types; the other supported types serve only themselves; the rest claim nothing. */
  lemma ClaimsOfEachType(t: RenderingPipelineType)
    ensures t == PBRModel ==> Claims(t) == {PBRModel, Reflection, AdditiveLighting, AdditiveLightingMS}
    ensures t in {Skybox, GUI, CascadedShadowMapping, Text3D} ==> Claims(t) == {t}
    ensures t !in {Skybox, PBRModel, GUI, CascadedShadowMapping, Text3D} ==> Claims(t) == {}
    ensures forall k :: k in Claims(t) ==> k != NoType
  {
  }

  class RenderPass {
    var renderingType: RenderingPipelineType

    constructor ()
      ensures renderingType == NoType
    {
      renderingType := NoType;
    }
  }

  /** The registry after every slot in `claimed` is pointed at `pass`. */
  function Claim(passes: map<RenderingPipelineType, RenderPass>, claimed: set<RenderingPipelineType>, pass: RenderPass): (r: map<RenderingPipelineType, RenderPass>)
    ensures forall k :: k in claimed ==> k in r && r[k] == pass
    ensures forall k :: k !in claimed ==> (k in r <==> k in passes) && (k in passes ==> r[k] == passes[k])
  {
    map k | k in passes.Keys + claimed :: if k in claimed then pass else passes[k]
  }

  /** The registry after every slot naming `pass` is set to null. */
  function Release(passes: map<RenderingPipelineType, RenderPass>, pass: RenderPass): (r: map<RenderingPipelineType, RenderPass>)
    ensures forall k :: k in r <==> k in passes && passes[k] != pass
    ensures forall k :: k in r ==> r[k] == passes[k]
  {
    map k | k in passes && passes[k] != pass :: passes[k]
  }

  /** The slots among `visited` that name `pass` are null, the others as in `passes`. */
  function ReleaseAmong(passes: map<RenderingPipelineType, RenderPass>, pass: RenderPass, visited: seq<RenderingPipelineType>): map<RenderingPipelineType, RenderPass> {
    map k | k in passes && !(k in visited && passes[k] == pass) :: passes[k]
  }

  /**
   * Registering a pass that was nowhere in the registry and destroying it again leaves
   * exactly the slots it did not take over.
   */
  lemma ReleaseUndoesClaim(passes: map<RenderingPipelineType, RenderPass>, t: RenderingPipelineType, pass: RenderPass)
    requires forall k | k in passes :: passes[k] != pass
    ensures Release(Claim(passes, Claims(t), pass), pass) == map k | k in passes && k !in Claims(t) :: passes[k]
  {
    var after := Release(Claim(passes, Claims(t), pass), pass);
    var expected := map k | k in passes && k !in Claims(t) :: passes[k];
    assert forall k :: k in after <==> k in expected;
  }

  /** The static array `s_renderPasses`. */
  class Registry {
    var passes: map<RenderingPipelineType, RenderPass>

    constructor ()
      ensures passes == map[]
    {
      passes := map[];
    }

    /** `SetRenderingType`: records the type and claims the pass's slots; other types only log. */
    method SetRenderingType(pass: RenderPass, t: RenderingPipelineType)
      modifies this, pass
      ensures pass.renderingType == t
      ensures passes == Claim(old(passes), Claims(t), pass)
    {
      pass.renderingType := t;
      match t
      case Skybox =>
        passes := passes[Skybox := pass];
      case PBRModel =>
        passes := passes[PBRModel := pass][Reflection := pass][AdditiveLighting := pass][AdditiveLightingMS := pass];
      case GUI =>
        passes := passes[GUI := pass];
      case CascadedShadowMapping =>
        passes := passes[CascadedShadowMapping := pass];
      case Text3D =>
        passes := passes[Text3D := pass];
      case _ =>
    }

    /** The destructor: a pass with a type nulls every slot that names it. */
    method Destroy(pass: RenderPass)
      modifies this
      ensures passes == if pass.renderingType == NoType then old(passes) else Release(old(passes), pass)
    {
      if pass.renderingType == NoType {
        return;
      }
      var kept := passes;
      var i := 0;
      while i < |AllTypes|
        invariant 0 <= i <= |AllTypes|
        invariant kept == ReleaseAmong(passes, pass, AllTypes[..i])
      {
        var t := AllTypes[i];
        assert AllTypes[..i + 1] == AllTypes[..i] + [t];
        if t in kept && kept[t] == pass {
          kept := kept - {t};
        }
        i := i + 1;
      }
      forall k ensures k in AllTypes {
        AllTypesListsEvery(k);
      }
      assert AllTypes[..i] == AllTypes;
      passes := kept;
    }

    /** `GetRenderPass`: asserts the type is a real one; an empty slot is null. */
    method GetRenderPass(t: RenderingPipelineType) returns (r: Option<RenderPass>)
      requires t != NoType
      ensures r == if t in passes then Some(passes[t]) else None
    {
      if t in passes {
        r := Some(passes[t]);
      } else {
        r := None;
      }
    }

    /**
     * The move assignment as written: the target takes the source's type and the single
     * slot of that type; the source's type becomes `None`.
     */
    method MoveAssignAsWritten(target: RenderPass, source: RenderPass)
      modifies this, target, source
      ensures target != source ==> target.renderingType == old(source.renderingType) && source.renderingType == NoType
      ensures target != source ==> passes == old(passes)[target.renderingType := target]
      ensures target == source ==> passes == old(passes) && target.renderingType == old(target.renderingType)
    {
      if target != source {
        target.renderingType := source.renderingType;
        source.renderingType := NoType;
        passes := passes[target.renderingType := target];
      }
    }

    /** The move assignment re-pointing every slot the source's type claims. */
    method MoveAssign(target: RenderPass, source: RenderPass)
      modifies this, target, source
      ensures target != source ==> target.renderingType == old(source.renderingType) && source.renderingType == NoType
      ensures target != source ==> passes == Claim(old(passes), Claims(target.renderingType), target)
      ensures target == source ==> passes == old(passes) && target.renderingType == old(target.renderingType)
    {
      if target != source {
        target.renderingType := source.renderingType;
        source.renderingType := NoType;
        passes := Claim(passes, Claims(target.renderingType), target);
      }
    }
  }

  /**
   * Moving a registered PBR model pass as written leaves the reflection slot naming the
   * moved-from pass, whose type is now `None`, so its destructor never clears the slot.
   */
  lemma MoveAsWrittenLeavesStaleSlot(a: RenderPass, b: RenderPass)
    requires a != b
    ensures var registered := Claim(map[], Claims(PBRModel), a);
      var moved := registered[PBRModel := b];
      Reflection in moved && moved[Reflection] == a
  {
  }

  /**
   * After the corrected move, no slot names the moved-from pass, provided it only held
   * the slots of its own type.
   */
  lemma MoveLeavesNoStaleSlot(passes: map<RenderingPipelineType, RenderPass>, t: RenderingPipelineType, source: RenderPass, target: RenderPass)
    requires source != target
    requires forall k | k in passes && passes[k] == source :: k in Claims(t)
    ensures var moved := Claim(passes, Claims(t), target);
      forall k | k in moved :: moved[k] != source
  {
  }
}
