/** The position arrow glyph (`LevelMarker`): its glyph style with the
    cached bounding box derived from it, and the rule that picks the
    glyph's vertical screen coordinate, pinning it to the top or bottom
    edge of the view when its price level is scrolled out of range. */
module Marker {

  /** The two arrow glyphs: `Up` is the long glyph "|<", `Down` the short glyph ">|". */
  datatype Style = Up | Down

  /** Width and height of a glyph's bounding box in scene coordinates. */
  datatype Rect = Rect(width: real, height: real)

  datatype Point = Point(x: real, y: real)

  const Origin := Point(0.0, 0.0)

  /** The vertical scene coordinate chosen by `position_in_view` for a
      glyph of height `h` tracking `level`, when the view shows the price
      range [ymin, ymax], is `viewHeight` pixels tall, and maps `level`
      to `mappedY`. Both bounds count as in view. A glyph pinned to the
      top has its top edge h/3 below the top of the view; one pinned to
      the bottom has its bottom edge h/3 above the bottom of the view. So
      an off-screen level keeps the glyph's box [y, y + h] inside the view
      whenever the view is at least 4/3 glyphs tall. */
  function PinnedY(level: real, ymin: real, ymax: real, h: real, viewHeight: real, mappedY: real): (y: real)
    ensures ymin <= level <= ymax ==> y == mappedY
    ensures ymax < level ==> y == h / 3.0
    ensures level < ymin && level <= ymax ==> viewHeight - (y + h) == h / 3.0
    ensures (level < ymin || ymax < level) && 0.0 <= h && 4.0 / 3.0 * h <= viewHeight ==>
              0.0 <= y && y + h <= viewHeight
  {
    if level > ymax then h / 3.0                  // pinned to the top edge
    else if level < ymin then viewHeight - 4.0 / 3.0 * h  // pinned to the bottom edge
    else mappedY
  }

  /** The vertical coordinate `paint` gives the glyph: the pinning rule
      when the marker keeps itself in view, otherwise the level's literal
      scene position `sceneY`, even when that is off screen. With the
      pinning rule, the anchor stays in the view for every level as long
      as the mapping puts the levels of the range inside the view. */
  function PaintY(keepInView: bool, level: real, ymin: real, ymax: real, h: real,
                  viewHeight: real, mappedY: real, sceneY: real): (y: real)
    ensures !keepInView ==> y == sceneY
    ensures keepInView && 0.0 <= h && 4.0 / 3.0 * h <= viewHeight &&
            (ymin <= level <= ymax ==> 0.0 <= mappedY <= viewHeight) ==>
              0.0 <= y <= viewHeight
  {
    if keepInView then PinnedY(level, ymin, ymax, h, viewHeight, mappedY) else sceneY
  }

  /** A linear view-to-screen mapping (screen y grows downwards): the top
      of the price range maps to 0 and the bottom to `viewHeight`. It is
      used only to state what the pinning rule achieves on screen. */
  function LinearY(level: real, ymin: real, ymax: real, viewHeight: real): real
    requires ymin < ymax
  {
    viewHeight * (ymax - level) / (ymax - ymin)
  }

  /** Under a linear mapping, a level inside the price range lands inside the view. */
  lemma LinearYInView(level: real, ymin: real, ymax: real, viewHeight: real)
    requires ymin < ymax && ymin <= level <= ymax && 0.0 <= viewHeight
    ensures 0.0 <= LinearY(level, ymin, ymax, viewHeight) <= viewHeight
  {
    var d := ymax - ymin;
    var f := (ymax - level) / d;
    assert f * d == ymax - level <= d;
    assert 0.0 <= f <= 1.0;
    assert LinearY(level, ymin, ymax, viewHeight) == viewHeight * f;
    assert viewHeight * f <= viewHeight * 1.0;
  }

  /** With `keep_in_view` set and a linear mapping, the glyph's anchor
      never leaves the view, whatever the level. */
  lemma KeepInViewAnchorOnScreen(level: real, ymin: real, ymax: real, h: real, viewHeight: real)
    requires ymin < ymax && 0.0 <= h && 4.0 / 3.0 * h <= viewHeight
    ensures var y := PaintY(true, level, ymin, ymax, h, viewHeight, LinearY(level, ymin, ymax, viewHeight), 0.0);
            0.0 <= y <= viewHeight
  {
    if ymin <= level <= ymax {
      LinearYInView(level, ymin, ymax, viewHeight);
    }
  }

  /** An illustration of the first clause of `PaintY`: without
      `keep_in_view` the pinning rule is skipped: if the scene y
      supplied for the level follows a linear mapping, a level of 150
      with the range [10, 100] in a 90-pixel view lands at y = -50,
      above the view. */
  lemma WithoutKeepInViewGlyphLeavesView()
    ensures PaintY(false, 150.0, 10.0, 100.0, 9.0, 90.0, 0.0, LinearY(150.0, 10.0, 100.0, 90.0)) == -50.0
  {
  }

  /** The glyph of a position: its style, the bounding box cached from
      that style's path, the price level it tracks, and its on-screen state. */
  class LevelMarker {
    /** Bounding box of the path generated for each style, at this marker's scale. */
    const pathBounds: Style -> Rect
    const keepInView: bool

    var style: Style
    var pathBr: Rect
    var level: real
    var visible: bool
    var inScene: bool
    var pos: Point

    /** The cached bounding box is the one of the current style's path. */
    ghost predicate Valid()
      reads this
    {
      pathBr == pathBounds(style)
    }

    /** A new glyph item is visible, as graphics items are by default, but
        not yet in the scene. Building it fails for a path whose bounding
        box is null (zero width and zero height). */
    constructor (style: Style, pathBounds: Style -> Rect, keepInView: bool)
      requires pathBounds(style) != Rect(0.0, 0.0)
      ensures Valid() && pathBr != Rect(0.0, 0.0)
      ensures this.style == style && this.pathBounds == pathBounds && this.keepInView == keepInView
      ensures level == 0.0 && visible && !inScene && pos == Origin
    {
      this.pathBounds := pathBounds;
      this.keepInView := keepInView;
      this.style := style;
      pathBr := pathBounds(style);
      level := 0.0;
      visible := true;
      inScene := false;
      pos := Origin;
    }

    /** The `style` setter: regenerates the path and its bounding box only
        when the style actually changes; assigning the current style
        changes nothing. */
    method SetStyle(value: Style)
      requires Valid()
      modifies this`style, this`pathBr
      ensures Valid() && style == value
      ensures old(style) == value ==> unchanged(this)
    {
      if style != value {
        style := value;
        pathBr := pathBounds(value);
      }
    }

    /** Glyph height, read from the cache, which is never stale. */
    function H(): (h: real)
      reads this
      requires Valid()
      ensures h == pathBounds(style).height
    {
      pathBr.height
    }

    /** Glyph width, read from the cache, which is never stale. */
    function W(): (w: real)
      reads this
      requires Valid()
      ensures w == pathBounds(style).width
    {
      pathBr.width
    }

    method Show()
      modifies this`visible
      ensures visible
    {
      visible := true;
    }

    method Hide()
      modifies this`visible
      ensures !visible
    {
      visible := false;
    }

    /** Removes the glyph from the scene it is in; a glyph in no scene
        cannot be removed. */
    method Delete()
      requires inScene
      modifies this`inScene
      ensures !inScene
    {
      inScene := false;
    }

    /** `position_in_view`: place the glyph at the scene x anchor `x`
        and at the pinned vertical coordinate for the current `level`
        (read through the marker's level accessor by the caller). */
    method PositionInView(level: real, ymin: real, ymax: real, viewHeight: real, mappedY: real, x: real)
      requires Valid()
      modifies this`pos
      ensures pos.x == x
      ensures level > ymax ==> pos.y == pathBounds(style).height / 3.0
      ensures level <= ymax && level < ymin ==> pos.y == viewHeight - 4.0 / 3.0 * pathBounds(style).height
      ensures ymin <= level <= ymax ==> pos.y == mappedY
    {
      pos := Point(x, PinnedY(level, ymin, ymax, H(), viewHeight, mappedY));
    }

    /** `paint`: reposition with the pinning rule when the marker keeps
        itself in view, otherwise at the level's literal scene position. */
    method Paint(level: real, ymin: real, ymax: real, viewHeight: real, mappedY: real, sceneY: real, x: real)
      requires Valid()
      modifies this`pos
      ensures pos == Point(x, PaintY(keepInView, level, ymin, ymax, pathBounds(style).height, viewHeight, mappedY, sceneY))
      ensures !keepInView ==> pos.y == sceneY
    {
      if keepInView {
        PositionInView(level, ymin, ymax, viewHeight, mappedY, x);
      } else {
        pos := Point(x, sceneY);
      }
    }
  }
}
