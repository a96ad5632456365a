# piker position overlay — a Dafny model

This project models the decision logic of piker's position overlay
(`piker/ui/_position.py`). The overlay draws a trader's position ("pp") on a
price chart. It has an arrow glyph (`LevelMarker`) at the average entry price,
a horizontal level line, a `pp` label, and a size label showing `x{entry_size}`.
The graphics calls are abstracted away. What remains is a small deterministic
state machine, plus the rule that pins the glyph to the view's edge when its
price scrolls out of range.

Files:

- `wrappers.dfy`: module `Wrappers`. `Option`, used for the zero-or-one level
  line.
- `marker.dfy`: module `Marker`.
  - `PinnedY` is the three-way pinning rule of `position_in_view`, over `real`.
  - `PaintY` is the `keep_in_view` branch of `paint`.
  - `LevelMarker` is a class with the `style` setter and its cached bounding
    box (`pathBr`). `H`/`W` read that cache.
- `tracker_spec.dfy`: module `TrackerSpec`. The tracker's observable state as
  a value (`Snapshot`), with one function per transition (`PositionLine`,
  `UpdateLine`, `Show`, `Hide`, `HideInfo`, `Update`). It also holds lemmas
  about single updates and about arbitrary runs of updates (`Run`).
- `tracker.dfy`: module `Tracker`. `LevelLine`, `Label` and `PositionTracker`
  are classes whose fields the methods update in place. Each state-changing
  method is proved to move `Snap()` exactly as the matching `TrackerSpec`
  function says. The two scenario methods at the end are client code that
  walks through example sequences of updates.

Prices and sizes are `real`. The bounding box of a glyph's path is a
function `pathBounds: Style -> Rect`, given to the marker when it is built.
It stands for the path generator and the scene mapping, which are not part of
this model. Screen coordinates (`mappedY`, `sceneY`, the x anchor, the view
height and range) are inputs.

Three behaviours of the code differ from what a reader of the overlay's
purpose might expect. The model follows the code:

- The marker glyph is chosen only when a line is created, in `position_line`.
  A direct flip from long to short (or back) reuses the line and keeps the
  old glyph. So "glyph direction equals the sign of the size" holds only for
  runs without a direct flip. `TrackerSpec.StyleTracksSignIffNoFlip` and
  `TrackerSpec.RunStyleTracksSign` prove this.
  `TrackerSpec.DirectFlipKeepsLongGlyph` gives the counterexample: long 5,
  then short 3.
- The constructor's `level_marker(size=1)` shows the placeholder glyph. So
  right after construction the marker is visible at size 0 (`TrackerSpec.Init`).
  It is hidden by the first flat update.
- `position_in_view` reads the tracker's `level()` (the line's level) through
  the marker's level accessor, not the marker's own `level` field. After
  every update both equal the average price whenever a line exists.

## Model

| member | source | states |
|---|---|---|
| `Marker.PinnedY` | piker/ui/_position.py:143-167 | A level within [ymin, ymax], both bounds inclusive, gets the mapped position. A level above the range is pinned at y = h/3 and one below at y = view height − 4/3·h, A glyph pinned to the top has its top edge exactly h/3 below the top of the view; one pinned to the bottom has its bottom edge exactly h/3 above the bottom of the view. Either way, when 0 ≤ h and the view is at least 4/3 glyphs tall, the glyph's box [y, y + h] lies inside the view. |
| `Marker.PaintY` | piker/ui/_position.py:189-196 | Without `keep_in_view` the glyph goes to the level's literal scene y. With it, the pinning rule keeps the anchor in [0, view height] for every level, provided 0 ≤ h, the view is at least 4/3 glyphs tall (4/3·h ≤ view height), and the mapping puts the levels of the range inside the view. |
| `Marker.KeepInViewAnchorOnScreen` | piker/ui/_position.py:189-190 | With `keep_in_view` set, a nonempty price range (ymin < ymax), a linear price-to-screen mapping, 0 ≤ h and a view at least 4/3 glyphs tall (4/3·h ≤ view height), the glyph's y lies inside [0, view height] for every level. |
| `Marker.WithoutKeepInViewGlyphLeavesView` | piker/ui/_position.py:192-196 | Illustration only of `PaintY`'s first clause: with `keep_in_view` off, the pinning rule is skipped. Under a linear mapping supplied as the scene y, a level above the range (150 in [10, 100], 90-pixel view) lands at y = −50, outside the view. |
| `Marker.LevelMarker.constructor` | piker/ui/_position.py:66-91 | A new marker has the requested style and a bounding box cached for that style, level 0, and the given `keep_in_view`. It is visible, as a new graphics item is, and not yet in the scene. Construction requires the style's path box to be non-null, the condition the source asserts; the cached box is then non-null. |
| `Marker.LevelMarker.SetStyle` | piker/ui/_position.py:97-108 | The setter leaves the style equal to the value and the cached box equal to that style's box. Assigning the current style changes nothing. |
| `Marker.LevelMarker.H` | piker/ui/_position.py:114-116 | The height is that of the current style's path box: the cache is never stale. |
| `Marker.LevelMarker.W` | piker/ui/_position.py:118-120 | The width is that of the current style's path box. |
| `Marker.LevelMarker.Delete` | piker/ui/_position.py:111-112 | It requires the glyph to be in a scene, since the source removes it through `scene()`; afterwards the glyph is no longer in the scene. |
| `Marker.LevelMarker.PositionInView` | piker/ui/_position.py:122-167 | x is the scene anchor. y is h/3 above the range, view height − 4/3·h below it (the glyph's top edge when pinned to the bottom), and the mapped y inside it. When the range is inverted, the top pin wins. |
| `Marker.LevelMarker.Paint` | piker/ui/_position.py:176-198 | `paint` uses the pinning rule when `keep_in_view` is set, and otherwise the literal scene y of the level. |
| `TrackerSpec.PositionLine` | piker/ui/_position.py:402-449 | A new line exists at `level`, not yet shown, and `level()` returns `level`. The marker gets the glyph of the size's sign ("|<" long, ">|" short), the same level, and is shown. Nothing else changes. |
| `TrackerSpec.UpdateLine` | piker/ui/_position.py:496-530 | Afterwards a line exists iff size ≠ 0, shown at `price` with the marker level at `price`. Only a newly created line sets the glyph from the sign. Moving an existing line keeps the glyph. Deleting, or a flat no-op, leaves the marker untouched. |
| `TrackerSpec.Show` | piker/ui/_position.py:330-335 | At size 0 nothing changes. Otherwise line, marker and both labels are shown. It may be applied only when a nonzero size has a line, so it never dereferences a missing line. |
| `TrackerSpec.Hide` | piker/ui/_position.py:337-342 | Marker and both labels are hidden at any size, and the line too if one exists. Levels, glyph and position are unchanged. |
| `TrackerSpec.HideInfo` | piker/ui/_position.py:344-349 | Only the size label is hidden. |
| `TrackerSpec.Update` | piker/ui/_position.py:294-319 | The position takes the message's size and average price, and `entry_size` equals the size. A line exists iff size ≠ 0, and the line, `level()` and the marker sit at the average price. An open position is fully shown; a flat one has marker and labels hidden. |
| `TrackerSpec.Init` | piker/ui/_position.py:224-276 | After construction: size 0 and average price 0, no line so `level()` is 0, `entry_size` 0, the long placeholder glyph shown, `pp` label shown, size label hidden, and the tracker invariant holds. |
| `TrackerSpec.StyleFor` | piker/ui/_position.py:367-373 | For a nonzero size the glyph is "|<" (`Up`) exactly when the position is long and ">|" (`Down`) exactly when it is short; a zero size is outside its domain, as the source leaves the style unbound there. |
| `TrackerSpec.Level` | piker/ui/_position.py:324-328 | `level()` is the line's level, or 0 without one; in every consistent state it is the average price for an open position and 0 for a flat one. |
| `TrackerSpec.UpdateIdempotent` | piker/ui/_position.py:302-319 | Applying the same message twice gives the same state as applying it once. |
| `TrackerSpec.RunConsistent` | piker/ui/_position.py:294-319 | For every sequence of messages from a consistent state: line exists iff size ≠ 0, and line and marker levels equal the average price. After any nonempty run the display matches the size. |
| `TrackerSpec.RunReflectsLastMessage` | piker/ui/_position.py:302-328 | After any nonempty run, the position and `entry_size` are the last message's. `level()` is its average price, or 0 when flat. |
| `TrackerSpec.StyleTracksSignIffNoFlip` | piker/ui/_position.py:518-525 | From a state whose glyph matches its side, one update keeps glyph and side matched exactly when it does not flip directly between long and short. |
| `TrackerSpec.RunStyleTracksSign` | piker/ui/_position.py:428-434 | Over any run without a direct flip, the glyph is "|<" for a long position and ">|" for a short one whenever a line exists. |
| `TrackerSpec.DirectFlipKeepsLongGlyph` | piker/ui/_position.py:518-525 | Long 5 at 100, then short 3: the line is reused and the glyph stays long. |
| `Tracker.PositionTracker.LevelMarkerFor` | piker/ui/_position.py:351-400 | It requires any prior marker to be in the scene and the new style's path box to be non-null. Any prior marker leaves the scene. The new marker is fresh, keeps itself in view, has the glyph of the size's sign, level 0, and is in the scene and shown. |
| `Tracker.PositionTracker.constructor` | piker/ui/_position.py:217-276 | It requires the long glyph's path box to be non-null. The state equals `TrackerSpec.Init`: zeroed position, no line, long placeholder glyph at level 0 that is in the scene, keeps itself in view and is shown, `pp` label shown with no fields, size label hidden with `entry_size` 0. |
| `Tracker.PositionTracker.Level` | piker/ui/_position.py:324-328 | The tracker's `level()` is `TrackerSpec.Level` of its state: the line's level, or 0 without a line. |
| `Tracker.PositionTracker.PositionLine` | piker/ui/_position.py:402-449 | It creates one fresh line and stores it as the tracker's line. The state moves as `TrackerSpec.PositionLine` says. |
| `Tracker.PositionTracker.UpdateLine` | piker/ui/_position.py:496-530 | The state moves as `TrackerSpec.UpdateLine` says. With size ≠ 0 an existing line is the same object afterwards, and a missing one is created fresh. With size 0 an existing line is deleted and the reference cleared. The marker's position is unchanged. |
| `Tracker.PositionTracker.Show` | piker/ui/_position.py:330-335 | It requires a line whenever the size is nonzero, so it never dereferences a missing line. At size 0 it changes nothing; otherwise it follows `TrackerSpec.Show`. The marker's position is unchanged. |
| `Tracker.PositionTracker.Hide` | piker/ui/_position.py:337-342 | The state moves as `TrackerSpec.Hide` says. The line reference and the marker's position are unchanged. |
| `Tracker.PositionTracker.HideInfo` | piker/ui/_position.py:344-349 | Only the size label is hidden. |
| `Tracker.PositionTracker.Update` | piker/ui/_position.py:294-319 | The state moves as `TrackerSpec.Update` says. `entry_size` is set to the size. A line exists iff size ≠ 0, at the average price like `level()` and the marker. An existing line is reused, never duplicated. A flat update deletes it. The marker's position is unchanged. |
| `Tracker.PositionTracker.AlignToMarker` | piker/ui/_position.py:452-494 | With a line, the anchor is level with the marker and exactly the size label's width to its left. Without a line it is the origin. |
| `Tracker.PositionTracker.OnRangeChanged` | piker/ui/_position.py:375-380 | The marker, bound to the tracker's `level()` as its level accessor, is placed by the pinning rule using the level current at the moment it runs. With a line, `align_to_marker` then gives, for every label width w, the point w to the left of the pinned marker; under a linear mapping and a view at least 4/3 glyphs tall, that anchor's y stays in [0, view height]. |

## Left out

- Repaints. `position_line`, `update_line` and `update` request a repaint of the marker
  (`marker.update()`), and the repaint may move it. In the model that move
  is the separate `Paint` / `OnRangeChanged` call; the tracker's own methods
  leave the marker's position as it was.
- Qt and pyqtgraph scene graph. The model does not cover `setPos`,
  `mapFromView`/`mapToScene`, `paint`'s call to the base painter, the repaint
  requests (`marker.update()`), or `scene().addItem/removeItem`, which is
  reduced to an `inScene` flag. These are foreign rendering calls. Mapped and
  scene coordinates are inputs.
- Pens, brushes and colours (`setPen`, `fn.mkBrush`, `_color`), and the
  `level_line` behaviour flags. These only affect rendering.
- Label text layout: `render()`, the `scene_anchor` callbacks (`gpath_pin`,
  the size label placed right of the `pp` label), and the marker's `label`
  back-reference with its re-anchor call in `position_in_view`. Labels keep
  only their visibility and their fields.
- The `sigRangeChanged.connect` subscription. It is event plumbing, and
  repeated line creation reconnects it. `OnRangeChanged` models only what
  the connected callback does when it fires.
- The level accessor `get_level` is passed to the marker's methods as the
  value of `PositionTracker.Level()` read at call time. A function-valued
  field pointing back into the tracker would make the frames cyclic.
- The arrow size `floor(1.375 * font_size)` and the marker's scale. They are
  DPI-dependent and enter the model only through `pathBounds`.
- Float details: prices and sizes are `real`, so there is no NaN, rounding,
  or truthiness of non-numbers.
- The `Position` model's pydantic validation, its `fills` list (never read or
  written here), and the symbol type, reduced to a string. The source
  updates `size` and `avg_price` in place; the model assigns a record update
  of the value. Nothing else holds a reference to it, so no aliasing is lost.
- The marker's `_direction` attribute, which only duplicates the style, and
  `position_line`'s unused `orient_v` parameter.
- The placement of a glyph's path relative to the item's origin is not
  modelled: `Rect` has only a width and a height. Statements that the glyph's
  box is [y, y + h] assume the path extends downwards from the anchor, which
  depends on the path generator.
- `LevelLine` internals. A new line is assumed hidden until `show()`.
  `set_level(x)` followed by `value()` gives `x`. `delete()` ends the line's
  life (`alive`).
- `level_marker` is called only by the constructor in this file, so the
  tracker's marker is a constant field. `LevelMarkerFor` receives the prior
  marker as a parameter instead of reading `self._level_marker`.
- tests/conftest.py and tests/test_configs.py are not part of this model.
  They start the service tree and read configuration files from disk.
