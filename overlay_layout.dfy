/**
 * The placement of one overlay window (the part of `WindowManager.LayoutParams` the plugin
 * touches) and `applyParams`, the partial update of its six tunable fields.
 */
module OverlayLayout {
  import opened Wrappers

  /** The window type chosen when a window is created. */
  datatype WindowType = AccessibilityOverlay | ApplicationOverlay | SystemAlert

  /** `FLAG_NOT_FOCUSABLE | FLAG_NOT_TOUCH_MODAL`, that is 0x8 | 0x20. */
  const DEFAULT_FLAGS: int := 0x28

  /** `LayoutParams.MATCH_PARENT`. */
  const MATCH_PARENT: int := -1

  datatype Layout = Layout(windowType: WindowType, flags: int, gravity: int, x: int, y: int, width: int, height: int)

  /**
   * The six already-decoded optional arguments that follow the first argument of
   * `createWindow` and `updateWindow`; `None` stands for a Java `null`.
   */
  datatype ParamArgs = ParamArgs(
    flags: Option<int>, gravity: Option<int>, x: Option<int>, y: Option<int>, width: Option<int>, height: Option<int>)

  /** The arguments that change nothing. */
  const NoArgs := ParamArgs(None, None, None, None, None, None)

  /**
   * `new LayoutParams(type, FLAG_NOT_FOCUSABLE | FLAG_NOT_TOUCH_MODAL, TRANSLUCENT)`: the
   * constructor fills the whole screen at the origin with no gravity.
   */
  function InitialLayout(t: WindowType): (l: Layout)
    ensures l.windowType == t && l.flags == DEFAULT_FLAGS
    ensures l.width == MATCH_PARENT && l.height == MATCH_PARENT
    ensures l.gravity == 0 && l.x == 0 && l.y == 0
  {
    Layout(t, DEFAULT_FLAGS, 0, 0, 0, MATCH_PARENT, MATCH_PARENT)
  }

  /**
   * `applyParams`: every field whose argument is present takes that value, every other
   * field keeps its value, and the window type is never touched.
   */
  function ApplyParams(p: Layout, a: ParamArgs): (r: Layout)
    ensures r.windowType == p.windowType
    ensures r.flags == a.flags.GetOr(p.flags) && r.gravity == a.gravity.GetOr(p.gravity)
    ensures r.x == a.x.GetOr(p.x) && r.y == a.y.GetOr(p.y)
    ensures r.width == a.width.GetOr(p.width) && r.height == a.height.GetOr(p.height)
  {
    var p := if a.flags.Some? then p.(flags := a.flags.value) else p;
    var p := if a.gravity.Some? then p.(gravity := a.gravity.value) else p;
    var p := if a.x.Some? then p.(x := a.x.value) else p;
    var p := if a.y.Some? then p.(y := a.y.value) else p;
    var p := if a.width.Some? then p.(width := a.width.value) else p;
    if a.height.Some? then p.(height := a.height.value) else p
  }

  /** The arguments of two updates in a row: the later one wins where both are present. */
  function Then(a: ParamArgs, b: ParamArgs): ParamArgs {
    ParamArgs(
      if b.flags.Some? then b.flags else a.flags,
      if b.gravity.Some? then b.gravity else a.gravity,
      if b.x.Some? then b.x else a.x,
      if b.y.Some? then b.y else a.y,
      if b.width.Some? then b.width else a.width,
      if b.height.Some? then b.height else a.height)
  }

  /** Two partial updates equal one update with the merged arguments. */
  lemma ApplyParamsComposes(p: Layout, a: ParamArgs, b: ParamArgs)
    ensures ApplyParams(ApplyParams(p, a), b) == ApplyParams(p, Then(a, b))
  {
  }

  /** Applying the same arguments twice equals applying them once. */
  lemma ApplyParamsIdempotent(p: Layout, a: ParamArgs)
    ensures ApplyParams(ApplyParams(p, a), a) == ApplyParams(p, a)
  {
    ApplyParamsComposes(p, a, a);
    assert Then(a, a) == a;
  }

  /** Arguments that are all `null` leave the layout as it is. */
  lemma ApplyNoArgs(p: Layout)
    ensures ApplyParams(p, NoArgs) == p
  {
  }
}
