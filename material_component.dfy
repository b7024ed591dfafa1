/**
 * The inline setters of `MaterialComponent` in
 * lib/common/include/venom/common/plugin/graphics/MaterialComponent.h. The `__valueType`
 * bit mask is the set of its named bits (`FLOAT3D` = 1, `FLOAT4D` = 2, `FLOAT1D` = 4,
 * `TEXTURE` = 8); `NONE` is the empty set.
 */
module MaterialComponents {
  import opened VenomError

  datatype ValueFlag = Float3D | Float4D | Float1D | Texture

  /** The three bits that say which alternative of the value variant is held. */
  const FloatFlags: set<ValueFlag> := {Float3D, Float4D, Float1D}

  /** `MaterialComponentValueChannels`, as the set of colour channels it selects. */
  datatype Channel = Red | Green | Blue | Alpha

  const R: set<Channel> := {Red}
  const G: set<Channel> := {Green}
  const B: set<Channel> := {Blue}
  const A: set<Channel> := {Alpha}
  const RG: set<Channel> := {Red, Green}
  const GB: set<Channel> := {Green, Blue}
  const BA: set<Channel> := {Blue, Alpha}
  const RGB: set<Channel> := {Red, Green, Blue}
  const RGBA: set<Channel> := {Red, Green, Blue, Alpha}

  /** `ComponentValue`: `std::variant<Vec3, Vec4, float>`. */
  datatype ComponentValue =
    | Vec3(x: real, y: real, z: real)
    | Vec4(x: real, y: real, z: real, w: real)
    | Float(f: real)

  /** A value-initialised variant holds its first alternative, the zero vector. */
  const DefaultValue: ComponentValue := Vec3(0.0, 0.0, 0.0)

  /** The texture a component owns, identified by the image it was copied from. */
  datatype TextureCopy = TextureCopy(image: nat)

  /** `GetChannelsViews`: the names shown for channel indices 0 to 8. */
  const ChannelsViews: seq<string> := ["R", "G", "B", "A", "RG", "GB", "BA", "RGB", "RGBA"]

  /** `GetComponentValueChannelsFromIndex`: an index outside 0..8 selects RGBA. */
  function ChannelsFromIndex(index: int): set<Channel> {
    match index
    case 0 => R
    case 1 => G
    case 2 => B
    case 3 => A
    case 4 => RG
    case 5 => GB
    case 6 => BA
    case 7 => RGB
    case 8 => RGBA
    case _ => RGBA
  }

  function Letter(c: Channel): char {
    match c
    case Red => 'R'
    case Green => 'G'
    case Blue => 'B'
    case Alpha => 'A'
  }

  /**
   * Index `i` selects exactly the channels whose letters make up the `i`-th view name, so
   * the switch and the list of names agree; every other index selects all four channels.
   */
  lemma ChannelsFollowViews(index: int)
    ensures 0 <= index < |ChannelsViews| ==> forall c :: c in ChannelsFromIndex(index) <==> Letter(c) in ChannelsViews[index]
    ensures !(0 <= index < |ChannelsViews|) ==> ChannelsFromIndex(index) == RGBA
  {
  }

  /** The bit each flag is stored under in the `int` mask. */
  function Bit(f: ValueFlag): nat {
    match f
    case Float3D => 1
    case Float4D => 2
    case Float1D => 4
    case Texture => 8
  }

  /** The `int` value of a set of flags: the sum (here, the or) of their bits. */
  function Mask(flags: set<ValueFlag>): (m: nat)
    ensures m < 16
  {
    (if Float3D in flags then 1 else 0) + (if Float4D in flags then 2 else 0)
      + (if Float1D in flags then 4 else 0) + (if Texture in flags then 8 else 0)
  }

  /** The flags whose bit is set in `m`. */
  function FlagsOf(m: nat): set<ValueFlag> {
    set f: ValueFlag | (m / Bit(f)) % 2 == 1
  }

  /** Sets of flags and the masks 0 to 15 are in one-to-one correspondence. */
  lemma {:induction false} MaskRoundTrip(flags: set<ValueFlag>, m: nat)
    ensures FlagsOf(Mask(flags)) == flags
    ensures m < 16 ==> Mask(FlagsOf(m)) == m
  {
    var k := Mask(flags);
    forall f: ValueFlag ensures f in FlagsOf(k) <==> f in flags {
      match f
      case Float3D =>
      case Float4D =>
      case Float1D =>
      case Texture =>
    }
    if m < 16 {
      var s := FlagsOf(m);
      assert Float3D in s <==> m % 2 == 1;
      assert Float4D in s <==> (m / 2) % 2 == 1;
      assert Float1D in s <==> (m / 4) % 2 == 1;
      assert Texture in s <==> (m / 8) % 2 == 1;
    }
  }

  /** The value type after `SetValue` stores a value under flag `f`. */
  function WithValue(flags: set<ValueFlag>, f: ValueFlag): (r: set<ValueFlag>)
    requires f in FloatFlags
    ensures r * FloatFlags == {f}
    ensures Texture in r <==> Texture in flags
  {
    {f} + flags * {Texture}
  }

  /** The value type after `RemoveValue`. */
  function WithoutValue(flags: set<ValueFlag>): (r: set<ValueFlag>)
    ensures r * FloatFlags == {}
    ensures Texture in r <==> Texture in flags
  {
    flags * {Texture}
  }

  /** The value type after `SetTexture`. */
  function WithTexture(flags: set<ValueFlag>): (r: set<ValueFlag>)
    ensures r * FloatFlags == flags * FloatFlags
    ensures Texture in r
  {
    flags + {Texture}
  }

  /** The value type after `RemoveTexture`. */
  function WithoutTexture(flags: set<ValueFlag>): (r: set<ValueFlag>)
    ensures r * FloatFlags == flags * FloatFlags
    ensures Texture !in r
  {
    flags - {Texture}
  }

  /**
   * The value bits and the texture bit are independent: after any sequence of setters the
   * mask holds at most one value bit, and removing a texture put back by `SetTexture`
   * restores the mask (when there was no texture before).
   */
  lemma {:induction false} SettersKeepOneValueBit(flags: set<ValueFlag>, f: ValueFlag)
    requires |flags * FloatFlags| <= 1
    requires f in FloatFlags
    ensures |WithValue(flags, f) * FloatFlags| == 1
    ensures |WithoutValue(flags) * FloatFlags| == 0
    ensures |WithTexture(flags) * FloatFlags| <= 1
    ensures |WithoutTexture(flags) * FloatFlags| <= 1
    ensures Texture !in flags ==> WithoutTexture(WithTexture(flags)) == flags
  {
    assert WithValue(flags, f) * FloatFlags == {f};
  }

  class MaterialComponent {
    var valueType: set<ValueFlag>
    var channels: set<Channel>
    var texture: Option<TextureCopy>
    var value: ComponentValue

    /** At most one of the value bits is set, and it names the alternative held. */
    ghost predicate Valid()
      reads this
    {
      && |valueType * FloatFlags| <= 1
      && (valueType * FloatFlags != {} ==> FlagOf(value) in valueType)
    }

    /** A component starts with no value type and no texture; its channels are not initialised. */
    constructor ()
      ensures Valid() && valueType == {} && texture.None? && value == DefaultValue
    {
      valueType := {};
      texture := None;
      value := DefaultValue;
    }

    /** `SetValue`, one overload per alternative of the variant. */
    method SetValue(v: ComponentValue)
      modifies this`valueType, this`value
      ensures Valid()
      ensures valueType == WithValue(old(valueType), FlagOf(v))
      ensures value == v
    {
      valueType := {FlagOf(v)} + valueType * {Texture};
      value := v;
      assert valueType * FloatFlags == {FlagOf(v)};
    }

    /** `RemoveValue`: only the texture bit is kept. */
    method RemoveValue()
      modifies this`valueType, this`value
      ensures Valid()
      ensures valueType == WithoutValue(old(valueType))
      ensures value == DefaultValue
    {
      value := DefaultValue;
      valueType := valueType * {Texture};
    }

    /** `SetTexture`: a copy of the texture, all four channels, and the texture bit. */
    method SetTexture(t: TextureCopy)
      modifies this`texture, this`channels, this`valueType
      ensures old(Valid()) ==> Valid()
      ensures texture == Some(t) && channels == RGBA
      ensures valueType == WithTexture(old(valueType))
    {
      texture := Some(t);
      channels := RGBA;
      ghost var before := valueType;
      valueType := valueType + {Texture};
      assert valueType * FloatFlags == before * FloatFlags;
    }

    /** `RemoveTexture`: clears only the texture bit. */
    method RemoveTexture()
      modifies this`texture, this`valueType
      ensures old(Valid()) ==> Valid()
      ensures texture.None?
      ensures valueType == WithoutTexture(old(valueType))
    {
      texture := None;
      ghost var before := valueType;
      valueType := valueType - {Texture};
      assert valueType * FloatFlags == before * FloatFlags;
    }

    method SetChannels(c: set<Channel>)
      modifies this`channels
      ensures channels == c
    {
      channels := c;
    }

    method SetChannelsFromIndex(index: int)
      modifies this`channels
      ensures channels == ChannelsFromIndex(index)
    {
      channels := ChannelsFromIndex(index);
    }

    /** `HasTexture`: the texture bit of the mask, not the presence of the texture copy. */
    function HasTexture(): (r: bool)
      reads this
      ensures r <==> (Mask(valueType) / 8) % 2 == 1
    {
      Texture in valueType
    }
  }

  /** The bit each alternative of the variant is stored under. */
  function FlagOf(v: ComponentValue): (f: ValueFlag)
    ensures f in FloatFlags
  {
    match v
    case Vec3(_, _, _) => Float3D
    case Vec4(_, _, _, _) => Float4D
    case Float(_) => Float1D
  }

}
