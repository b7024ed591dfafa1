/**
 * lib/common/src/Context.cc: the video modes a screen reports, the window's choice among
 * them, and the per-frame keyboard and mouse bookkeeping. Calls into the windowing
 * backend (`_UpdateRefreshRate`, `_UpdateVideoMode`, `_UpdateScreen`, `_ShouldClose`,
 * `_GetCursorPos`) are parameters carrying their results.
 */
module Context {
  import opened VenomError
  import opened Sorting
  import ContextInput

  /** `InputState`. */
  datatype InputState = Released | Pressed | Repeat | Unknown

  /**
   * `MouseButton::MouseTotal`: the enumerator declared after `MouseButtonMiddle = MouseButton3`,
   * so 3, although `MouseButton4` to `MouseButton8` are enumerators too. `__mouseState` has
   * this many entries.
   */
  const MouseTotal: int := 3

  /** The enumerators `MouseButton1` to `MouseButton8` are 0 to 7. */
  const MouseButtonCount: int := 8

  /**
   * The index of the topmost button on a released stack that has no entry in
   * `__mouseState`, or -1 when every button on it has one.
   */
  function TopmostUnbacked(stack: seq<int>): (r: int)
    ensures -1 <= r < |stack|
    ensures r >= 0 ==> !(0 <= stack[r] < MouseTotal)
    ensures forall k | r < k < |stack| :: 0 <= stack[k] < MouseTotal
  {
    if stack == [] then -1
    else if !(0 <= stack[|stack| - 1] < MouseTotal) then |stack| - 1
    else TopmostUnbacked(stack[..|stack| - 1])
  }

  /** A released side button (`MouseButton4`, 3) has no state entry; left and middle do. */
  lemma SideButtonHasNoState()
    ensures TopmostUnbacked([0, 3, 2]) == 1
    ensures TopmostUnbacked([0, 1, 2]) == -1
  {
    assert [0, 3, 2][..2] == [0, 3];
    assert [0, 1, 2][..2] == [0, 1];
    assert [0, 1][..1] == [0];
    assert [0][..0] == [];
  }

  /** `ScreenVideoMode`: a size and the refresh rates reported for it. */
  datatype VideoMode = VideoMode(width: int, height: int, refreshRates: seq<int>)

  /** `ScreenVideoMode::operator==`: modes are equal when their sizes are. */
  predicate HasSize(m: VideoMode, width: int, height: int) {
    m.width == width && m.height == height
  }

  /** No two modes have the same size. */
  ghost predicate UniqueSizes(modes: seq<VideoMode>) {
    forall i, j :: 0 <= i < j < |modes| ==> !HasSize(modes[j], modes[i].width, modes[i].height)
  }

  /** `std::find` with `operator==`: the first mode of the given size. */
  function FindMode(modes: seq<VideoMode>, width: int, height: int): (r: Option<nat>)
    ensures r.Some? ==> r.value < |modes| && HasSize(modes[r.value], width, height)
    ensures r.Some? ==> forall k :: 0 <= k < r.value ==> !HasSize(modes[k], width, height)
    ensures r.None? ==> forall k :: 0 <= k < |modes| ==> !HasSize(modes[k], width, height)
  {
    if modes == [] then None
    else if HasSize(modes[0], width, height) then Some(0)
    else match FindMode(modes[1..], width, height)
      case None => None
      case Some(i) => Some(i + 1)
  }

  /** The modes after `Screen::AddVideoMode(width, height, rate)`. */
  function WithVideoMode(modes: seq<VideoMode>, width: int, height: int, rate: int): (r: seq<VideoMode>)
    ensures |modes| <= |r| <= |modes| + 1
    ensures |r| == |modes| + 1 <==> forall k :: 0 <= k < |modes| ==> !HasSize(modes[k], width, height)
  {
    match FindMode(modes, width, height)
    case None => modes + [VideoMode(width, height, [rate])]
    case Some(i) => modes[i := modes[i].(refreshRates := modes[i].refreshRates + [rate])]
  }

  /**
   * Adding a mode keeps sizes unique, and afterwards exactly one mode has the added size:
   * its rates are the earlier ones followed by the new rate. Every other mode is as it was.
   */
  lemma AddVideoModeRecordsRate(modes: seq<VideoMode>, width: int, height: int, rate: int)
    requires UniqueSizes(modes)
    ensures var r := WithVideoMode(modes, width, height, rate);
      && UniqueSizes(r)
      && (exists i :: 0 <= i < |r| && HasSize(r[i], width, height)
            && r[i].refreshRates == (if i < |modes| then modes[i].refreshRates else []) + [rate])
      && (forall i :: 0 <= i < |modes| && !HasSize(modes[i], width, height) ==> r[i] == modes[i])
  {
    var r := WithVideoMode(modes, width, height, rate);
    match FindMode(modes, width, height)
    case None =>
      assert HasSize(r[|modes|], width, height) && r[|modes|].refreshRates == [] + [rate];
    case Some(i) =>
      assert HasSize(r[i], width, height);
      forall a, b | 0 <= a < b < |r|
        ensures !HasSize(r[b], r[a].width, r[a].height)
      {
        assert HasSize(r[a], modes[a].width, modes[a].height) && HasSize(r[b], modes[b].width, modes[b].height);
      }
  }

  /** The `std::sort` comparator: wider first, then taller first. */
  predicate ModeBefore(a: VideoMode, b: VideoMode) {
    if a.width == b.width then a.height > b.height else a.width > b.width
  }

  /** `std::greater<int>`: higher refresh rates first. */
  predicate RateBefore(a: int, b: int) {
    a > b
  }

  lemma ComparatorsAreStrictWeakOrders()
    ensures StrictWeakOrder(ModeBefore)
    ensures StrictWeakOrder(RateBefore)
  {
  }

  /** Each mode with its refresh rates sorted, highest first (`SortRefreshRates`). */
  function WithRatesSorted(modes: seq<VideoMode>): (r: seq<VideoMode>)
    ensures |r| == |modes|
    ensures forall i :: 0 <= i < |r| ==> HasSize(r[i], modes[i].width, modes[i].height)
    ensures forall i :: 0 <= i < |r| ==> multiset(r[i].refreshRates) == multiset(modes[i].refreshRates)
  {
    seq(|modes|, i requires 0 <= i < |modes| => modes[i].(refreshRates := SortBy(modes[i].refreshRates, RateBefore)))
  }

  /** The modes after `Screen::SortVideoModes`. */
  function SortedVideoModes(modes: seq<VideoMode>): seq<VideoMode> {
    WithRatesSorted(SortBy(modes, ModeBefore))
  }

  /** After sorting, modes run from the widest down, the tallest first among equally wide ones. */
  lemma SortVideoModesOrdersSizes(modes: seq<VideoMode>)
    ensures var r := SortedVideoModes(modes);
      && |r| == |modes|
      && forall i, j :: 0 <= i < j < |r| ==> !ModeBefore(r[j], r[i])
  {
    hide SortBy, InsertBy;
    ComparatorsAreStrictWeakOrders();
    var sorted := SortBy(modes, ModeBefore);
    SortBySorts(modes, ModeBefore);
    var r := SortedVideoModes(modes);
    assert |sorted| == |modes| by {
      assert |multiset(sorted)| == |multiset(modes)|;
    }
    forall i, j | 0 <= i < j < |r|
      ensures !ModeBefore(r[j], r[i])
    {
      assert !ModeBefore(sorted[j], sorted[i]);
    }
  }

  /**
   * After sorting, each mode's rates run from the highest down, and each mode is an input
   * mode of the same size whose rates were only reordered.
   */
  lemma SortVideoModesSortsRates(modes: seq<VideoMode>)
    ensures var r := SortedVideoModes(modes);
      forall i :: 0 <= i < |r| ==>
        && SortedBy(r[i].refreshRates, RateBefore)
        && exists j :: (0 <= j < |modes| && HasSize(modes[j], r[i].width, r[i].height)
             && multiset(modes[j].refreshRates) == multiset(r[i].refreshRates))
  {
    hide SortBy, InsertBy;
    ComparatorsAreStrictWeakOrders();
    var sorted := SortBy(modes, ModeBefore);
    var r := SortedVideoModes(modes);
    forall i | 0 <= i < |r|
      ensures SortedBy(r[i].refreshRates, RateBefore)
      ensures exists j :: (0 <= j < |modes| && HasSize(modes[j], r[i].width, r[i].height)
            && multiset(modes[j].refreshRates) == multiset(r[i].refreshRates))
    {
      SortBySorts(sorted[i].refreshRates, RateBefore);
      assert sorted[i] in multiset(modes) by {
        assert sorted[i] in multiset(sorted);
      }
      var j :| 0 <= j < |modes| && modes[j] == sorted[i];
      assert HasSize(modes[j], r[i].width, r[i].height);
    }
  }

  /** `Screen`: the video modes of one display. */
  class Screen {
    var modes: seq<VideoMode>

    constructor ()
      ensures modes == []
    {
      modes := [];
    }

    /** `AddVideoMode`: a new size becomes a mode; a known size gains the rate. */
    method AddVideoMode(width: int, height: int, rate: int)
      modifies this
      ensures modes == WithVideoMode(old(modes), width, height, rate)
    {
      var found := FindMode(modes, width, height);
      if found.None? {
        modes := modes + [VideoMode(width, height, [])];
        found := Some(|modes| - 1);
      }
      var i := found.value;
      assert [] + [rate] == [rate];
      modes := modes[i := modes[i].(refreshRates := modes[i].refreshRates + [rate])];
    }

    /** `SortVideoModes`: `std::sort` by size, then each mode's `SortRefreshRates`. */
    method SortVideoModes()
      modifies this
      ensures modes == SortedVideoModes(old(modes))
    {
      hide SortBy, InsertBy;
      modes := SortBy(modes, ModeBefore);
      ghost var sorted := modes;
      var i := 0;
      while i < |modes|
        invariant 0 <= i <= |modes| == |sorted|
        invariant forall k :: 0 <= k < i ==> modes[k] == sorted[k].(refreshRates := SortBy(sorted[k].refreshRates, RateBefore))
        invariant forall k :: i <= k < |modes| ==> modes[k] == sorted[k]
      {
        modes := modes[i := modes[i].(refreshRates := SortBy(modes[i].refreshRates, RateBefore))];
        i := i + 1;
      }
    }
  }

  /**
   * What a `Change*` call did: returned an error code, or indexed a vector out of range
   * (undefined behaviour in the source), in which case the model stops there.
   */
  datatype Status = Returned(err: Error) | OutOfRangeRead

  /** The checks of `ChangeVideoMode(index)` on screen `screenIndex`; `update` is `_UpdateVideoMode()`. */
  function ChangeVideoModeStatus(screens: seq<seq<VideoMode>>, screenIndex: int, index: int, update: Error): (r: Status)
    ensures r == OutOfRangeRead <==> index >= 0 && !(0 <= screenIndex < |screens|)
    ensures r == Returned(InvalidArgument) || r == Returned(update) || r == OutOfRangeRead
    ensures 0 <= screenIndex < |screens| ==> (r == Returned(update) <==> 0 <= index < |screens[screenIndex]| || update == InvalidArgument)
  {
    if index < 0 then Returned(InvalidArgument)
    else if !(0 <= screenIndex < |screens|) then OutOfRangeRead
    else if index >= |screens[screenIndex]| then Returned(InvalidArgument)
    else Returned(update)
  }

  /** The checks of `ChangeScreen(index)`: the video-mode index is reused as it stands. */
  function ChangeScreenStatus(screens: seq<seq<VideoMode>>, videoModeIndex: int, index: int, update: Error): (r: Status)
    ensures !(0 <= index < |screens|) ==> r == Returned(InvalidArgument)
    ensures 0 <= index < |screens| ==> (r == OutOfRangeRead <==> !(0 <= videoModeIndex < |screens[index]|))
    ensures r == Returned(InvalidArgument) || r == Returned(update) || r == OutOfRangeRead
  {
    if !(0 <= index < |screens|) then Returned(InvalidArgument)
    else if !(0 <= videoModeIndex < |screens[index]|) then OutOfRangeRead
    else Returned(update)
  }

  /**
   * A valid `ChangeVideoMode` on a screen with two modes, then a valid `ChangeScreen` to a
   * screen with one mode: the kept video-mode index reads past the second screen's modes.
   */
  lemma ChangeScreenKeepsStaleModeIndex(a: VideoMode, b: VideoMode, c: VideoMode, update: Error)
    ensures var screens := [[a, b], [c]];
      && ChangeVideoModeStatus(screens, 0, 1, update) == Returned(update)
      && ChangeScreenStatus(screens, 1, 1, update) == OutOfRangeRead
  {
  }

  /** `Context`: the fields of the modelled functions. */
  class Context {
    var keyboardState: array<InputState>
    var mouseState: array<InputState>
    var keyboardModifierState: int
    var keyReleasedStack: seq<int>
    var mouseReleasedStack: seq<int>
    var mousePos: (real, real)
    var mouseLastPos: (real, real)
    var shouldClose: bool
    /** `_screens`: each screen's video modes. */
    var screens: seq<seq<VideoMode>>
    var currentScreenIndex: int
    var currentVideoModeIndex: int
    var currentRefreshRate: int
    var width: int
    var height: int
    var fullscreen: bool
    var scale: real

    /**
     * The state arrays have their enum sizes. Released keys are valid key indices, and
     * released buttons are `MouseButton` enumerators, which may lie past `MouseTotal`.
     */
    ghost predicate Valid()
      reads this
    {
      && keyboardState.Length == ContextInput.KeyboardTotal
      && mouseState.Length == MouseTotal
      && keyboardState != mouseState
      && (forall k :: 0 <= k < |keyReleasedStack| ==> 0 <= keyReleasedStack[k] < ContextInput.KeyboardTotal)
      && (forall k :: 0 <= k < |mouseReleasedStack| ==> 0 <= mouseReleasedStack[k] < MouseButtonCount)
    }

    /** The constructor: every key and button `Unknown`, indices 0, no modifier, scale 1. */
    constructor ()
      ensures Valid()
      ensures forall k :: 0 <= k < keyboardState.Length ==> keyboardState[k] == InputState.Unknown
      ensures forall k :: 0 <= k < mouseState.Length ==> mouseState[k] == InputState.Unknown
      ensures keyboardModifierState == 0 && keyReleasedStack == [] && mouseReleasedStack == []
      ensures mousePos == (0.0, 0.0) && mouseLastPos == (0.0, 0.0) && !shouldClose
      ensures screens == [] && currentScreenIndex == 0 && currentVideoModeIndex == 0
      ensures !fullscreen && scale == 1.0
    {
      keyboardModifierState := 0;
      mousePos := (0.0, 0.0);
      mouseLastPos := (0.0, 0.0);
      shouldClose := false;
      currentScreenIndex := 0;
      currentVideoModeIndex := 0;
      fullscreen := false;
      scale := 1.0;
      keyReleasedStack := [];
      mouseReleasedStack := [];
      screens := [];
      var keys := new InputState[ContextInput.KeyboardTotal];
      var buttons := new InputState[MouseTotal];
      for i := 0 to keys.Length
        invariant forall k :: 0 <= k < i ==> keys[k] == InputState.Unknown
      {
        keys[i] := InputState.Unknown;
      }
      for i := 0 to buttons.Length
        invariant forall k :: 0 <= k < i ==> buttons[k] == InputState.Unknown
        invariant forall k :: 0 <= k < keys.Length ==> keys[k] == InputState.Unknown
      {
        buttons[i] := InputState.Unknown;
      }
      keyboardState := keys;
      mouseState := buttons;
    }

    /**
     * `ChangeRefreshRate`: a negative rate, or one the current mode does not list, is an
     * invalid argument; a listed rate is taken together with the mode's size.
     */
    method ChangeRefreshRate(rate: int, update: Error) returns (status: Status)
      modifies this`currentRefreshRate, this`width, this`height
      ensures rate < 0 ==> status == Returned(InvalidArgument) && unchanged(this)
      ensures rate >= 0 && !(0 <= currentScreenIndex < |screens| && 0 <= currentVideoModeIndex < |screens[currentScreenIndex]|) ==>
        status == OutOfRangeRead && unchanged(this)
      ensures rate >= 0 && 0 <= currentScreenIndex < |screens| && 0 <= currentVideoModeIndex < |screens[currentScreenIndex]| ==>
        var mode := screens[currentScreenIndex][currentVideoModeIndex];
        && (rate in mode.refreshRates ==> status == Returned(update) && currentRefreshRate == rate && width == mode.width && height == mode.height)
        && (rate !in mode.refreshRates ==> status == Returned(InvalidArgument) && unchanged(this))
    {
      if rate < 0 {
        return Returned(InvalidArgument);
      }
      if !(0 <= currentScreenIndex < |screens| && 0 <= currentVideoModeIndex < |screens[currentScreenIndex]|) {
        return OutOfRangeRead;
      }
      var mode := screens[currentScreenIndex][currentVideoModeIndex];
      var i := 0;
      while i < |mode.refreshRates|
        invariant 0 <= i <= |mode.refreshRates|
        invariant rate !in mode.refreshRates[..i]
      {
        if mode.refreshRates[i] == rate {
          currentRefreshRate := rate;
          width := mode.width;
          height := mode.height;
          return Returned(update);
        }
        assert mode.refreshRates[..i + 1] == mode.refreshRates[..i] + [mode.refreshRates[i]];
        i := i + 1;
      }
      assert mode.refreshRates[..i] == mode.refreshRates;
      return Returned(InvalidArgument);
    }

    /** `ChangeVideoMode`: an index outside the current screen's modes changes nothing. */
    method ChangeVideoMode(index: int, update: Error) returns (status: Status)
      modifies this`currentVideoModeIndex, this`width, this`height
      ensures status == ChangeVideoModeStatus(screens, currentScreenIndex, index, update)
      ensures status.Returned? && status.err == update && 0 <= index && 0 <= currentScreenIndex < |screens| && index < |screens[currentScreenIndex]| ==>
        currentVideoModeIndex == index && width == screens[currentScreenIndex][index].width && height == screens[currentScreenIndex][index].height
      ensures !(0 <= index && 0 <= currentScreenIndex < |screens| && index < |screens[currentScreenIndex]|) ==> unchanged(this)
    {
      if index < 0 {
        return Returned(InvalidArgument);
      }
      if !(0 <= currentScreenIndex < |screens|) {
        return OutOfRangeRead;
      }
      if index >= |screens[currentScreenIndex]| {
        return Returned(InvalidArgument);
      }
      currentVideoModeIndex := index;
      width := screens[currentScreenIndex][index].width;
      height := screens[currentScreenIndex][index].height;
      return Returned(update);
    }

    /**
     * `ChangeScreen`: an index outside the screens changes nothing; otherwise the screen
     * changes and the current video-mode index is read on the new screen without a check.
     */
    method ChangeScreen(index: int, update: Error) returns (status: Status)
      modifies this`currentScreenIndex, this`width, this`height
      ensures status == ChangeScreenStatus(screens, currentVideoModeIndex, index, update)
      ensures !(0 <= index < |screens|) ==> unchanged(this)
      ensures 0 <= index < |screens| ==> currentScreenIndex == index
      ensures 0 <= index < |screens| && 0 <= currentVideoModeIndex < |screens[index]| ==>
        width == screens[index][currentVideoModeIndex].width && height == screens[index][currentVideoModeIndex].height
    {
      if !(0 <= index < |screens|) {
        return Returned(InvalidArgument);
      }
      currentScreenIndex := index;
      if !(0 <= currentVideoModeIndex < |screens[index]|) {
        return OutOfRangeRead;
      }
      width := screens[index][currentVideoModeIndex].width;
      height := screens[index][currentVideoModeIndex].height;
      return Returned(update);
    }

    /** The first loop of `PollEvents`: pops every released key and resets its state. */
    method ResetReleasedKeys()
      requires Valid()
      modifies this`keyReleasedStack, keyboardState
      ensures Valid() && keyReleasedStack == []
      ensures forall k :: 0 <= k < keyboardState.Length ==>
        keyboardState[k] == if k in old(keyReleasedStack) then InputState.Unknown else old(keyboardState[k])
    {
      ghost var keys := keyReleasedStack;
      while keyReleasedStack != []
        invariant keyReleasedStack == keys[..|keyReleasedStack|]
        invariant forall k :: 0 <= k < keyboardState.Length ==>
          keyboardState[k] == if k in keys[|keyReleasedStack|..] then InputState.Unknown else old(keyboardState[k])
        decreases |keyReleasedStack|
      {
        var n := |keyReleasedStack|;
        var top := keyReleasedStack[n - 1];
        assert top == keys[n - 1];
        keyboardState[top] := InputState.Unknown;
        keyReleasedStack := keyReleasedStack[..n - 1];
        assert keys[n - 1..] == [top] + keys[n..];
      }
    }

    /**
     * The second loop of `PollEvents`: pops released buttons and resets their states. A
     * button with no entry in `__mouseState` would be written out of bounds, which is
     * undefined; the loop stops there, leaving that button on the stack, and reports it.
     */
    method ResetReleasedButtons() returns (inBounds: bool)
      requires Valid()
      modifies this`mouseReleasedStack, mouseState
      ensures Valid()
      ensures inBounds <==> TopmostUnbacked(old(mouseReleasedStack)) == -1
      ensures mouseReleasedStack == old(mouseReleasedStack)[..TopmostUnbacked(old(mouseReleasedStack)) + 1]
      ensures forall k :: 0 <= k < mouseState.Length ==>
        mouseState[k] == if k in old(mouseReleasedStack)[TopmostUnbacked(old(mouseReleasedStack)) + 1..]
          then InputState.Unknown else old(mouseState[k])
    {
      ghost var buttons := mouseReleasedStack;
      ghost var j := TopmostUnbacked(buttons);
      while mouseReleasedStack != [] && 0 <= mouseReleasedStack[|mouseReleasedStack| - 1] < MouseTotal
        invariant mouseReleasedStack == buttons[..|mouseReleasedStack|]
        invariant j < |mouseReleasedStack|
        invariant forall k :: 0 <= k < mouseState.Length ==>
          mouseState[k] == if k in buttons[|mouseReleasedStack|..] then InputState.Unknown else old(mouseState[k])
        decreases |mouseReleasedStack|
      {
        var n := |mouseReleasedStack|;
        var top := mouseReleasedStack[n - 1];
        assert top == buttons[n - 1];
        mouseState[top] := InputState.Unknown;
        mouseReleasedStack := mouseReleasedStack[..n - 1];
        assert buttons[n - 1..] == [top] + buttons[n..];
      }
      inBounds := mouseReleasedStack == [];
    }

    /**
     * `PollEvents`: every key and button released in the previous frame goes back to
     * `Unknown` and both stacks are emptied; `closing` is `_ShouldClose()` and `cursor` is
     * what `_GetCursorPos` reports; the previous position becomes the last position. A
     * released button past `MouseTotal` makes the frame undefined: it is reported and
     * nothing after it is done.
     */
    method PollEvents(closing: bool, cursor: (real, real)) returns (inBounds: bool)
      requires Valid()
      modifies this`keyReleasedStack, this`mouseReleasedStack, this`shouldClose, this`mousePos, this`mouseLastPos
      modifies keyboardState, mouseState
      ensures Valid()
      ensures inBounds <==> TopmostUnbacked(old(mouseReleasedStack)) == -1
      ensures keyReleasedStack == []
      ensures inBounds ==> mouseReleasedStack == []
      ensures forall k :: 0 <= k < keyboardState.Length ==>
        keyboardState[k] == if k in old(keyReleasedStack) then InputState.Unknown else old(keyboardState[k])
      ensures inBounds ==> forall k :: 0 <= k < mouseState.Length ==>
        mouseState[k] == if k in old(mouseReleasedStack) then InputState.Unknown else old(mouseState[k])
      ensures inBounds ==> shouldClose == closing && mouseLastPos == old(mousePos) && mousePos == cursor
      ensures !inBounds ==> shouldClose == old(shouldClose) && mouseLastPos == old(mouseLastPos) && mousePos == old(mousePos)
    {
      ResetReleasedKeys();
      inBounds := ResetReleasedButtons();
      if !inBounds {
        return;
      }
      shouldClose := closing;
      mouseLastPos := mousePos;
      mousePos := cursor;
    }
  }
}
