/** The position overlay as objects: the level line, the labels and the
    `PositionTracker` that owns a position snapshot, one marker, zero or
    one line and two labels. Every method that changes the tracker is
    proved to follow the matching transition of module TrackerSpec. */
module Tracker {
  import opened Wrappers
  import opened Marker
  import opened TrackerSpec

  /** Key of the size label's field that shows the entry size. */
  const EntrySize := "entry_size"

  /** A horizontal price line; after `Delete` it is no longer alive. */
  class LevelLine {
    var level: real
    var visible: bool
    var alive: bool

    /** A new line at `level`; it is hidden until shown. */
    constructor (level: real)
      ensures this.level == level && !visible && alive
    {
      this.level := level;
      visible := false;
      alive := true;
    }

    method SetLevel(x: real)
      modifies this`level
      ensures level == x
    {
      level := x;
    }

    method Show()
      modifies this`visible
      ensures visible
    {
      visible := true;
    }

    method Hide()
      modifies this`visible
      ensures !visible
    {
      visible := false;
    }

    method Delete()
      modifies this`alive
      ensures !alive
    {
      alive := false;
    }
  }

  /** A text label: only its visibility and its named fields are modelled. */
  class Label {
    var visible: bool
    var fields: map<string, real>

    constructor (fields: map<string, real>)
      ensures this.fields == fields && !visible
    {
      this.fields := fields;
      visible := false;
    }

    method Show()
      modifies this`visible
      ensures visible
    {
      visible := true;
    }

    method Hide()
      modifies this`visible
      ensures !visible
    {
      visible := false;
    }

    method SetField(key: string, value: real)
      modifies this`fields
      ensures fields == old(fields)[key := value]
    {
      fields := fields[key := value];
    }
  }

  /** Tracks and displays one symbol's position on a chart. */
  class PositionTracker {
    var info: Position
    const marker: LevelMarker
    const ppLabel: Label
    const sizeLabel: Label
    var line: Option<LevelLine>

    ghost function Repr(): set<object>
      reads this
    {
      {this, marker, ppLabel, sizeLabel} + Elements(line)
    }

    /** The marker is always present: in the scene and keeping itself in
        view, shown or hidden but never removed. */
    ghost predicate Valid()
      reads this, Repr()
    {
      ppLabel != sizeLabel && marker.Valid() && marker.inScene && marker.keepInView &&
      EntrySize in sizeLabel.fields &&
      (line.Some? ==> line.value.alive)
    }

    /** The tracker's state as a value. */
    ghost function Snap(): Snapshot
      reads this, Repr()
      requires Valid()
    {
      Snapshot(info,
               if line.Some? then Some(LineView(line.value.level, line.value.visible)) else None,
               marker.style, marker.level, marker.visible,
               ppLabel.visible, sizeLabel.visible, sizeLabel.fields[EntrySize])
    }

    /** `level_marker(size)`: delete any prior marker and build a new one
        with the glyph of the size's sign, in the scene and shown. */
    static method LevelMarkerFor(prior: Option<LevelMarker>, size: real, pathBounds: Style -> Rect)
      returns (arrow: LevelMarker)
      requires size != 0.0 && pathBounds(StyleFor(size)) != Rect(0.0, 0.0)
      requires prior.Some? ==> prior.value.inScene
      modifies Elements(prior)
      ensures fresh(arrow) && arrow.Valid() && arrow.keepInView
      ensures arrow.style == StyleFor(size) && arrow.pathBounds == pathBounds
      ensures arrow.level == 0.0 && arrow.visible && arrow.inScene
      ensures prior.Some? ==> !prior.value.inScene
      ensures prior.Some? ==> prior.value.style == old(prior.value.style) &&
                              prior.value.pathBr == old(prior.value.pathBr) &&
                              prior.value.level == old(prior.value.level) &&
                              prior.value.visible == old(prior.value.visible) &&
                              prior.value.pos == old(prior.value.pos)
    {
      if prior.Some? {
        prior.value.Delete();
      }
      arrow := new LevelMarker(StyleFor(size), pathBounds, true);
      arrow.inScene := true;  // added to the view's scene
      arrow.Show();
    }

    /** A tracker for `symbol`, flat, with a placeholder long marker built
        for size 1, the `pp` label shown and the size label hidden. */
    constructor (symbol: string, pathBounds: Style -> Rect)
      requires pathBounds(Up) != Rect(0.0, 0.0)
      ensures Valid() && fresh(Repr())
      ensures Snap() == Init(symbol)
      ensures info == Position(symbol, 0.0, 0.0) && line.None?
      ensures marker.style == Up && marker.pathBounds == pathBounds && marker.level == 0.0
      ensures marker.inScene && marker.keepInView && marker.visible
      ensures ppLabel.visible && !sizeLabel.visible && sizeLabel.fields == map[EntrySize := 0.0]
      ensures ppLabel.fields == map[]
    {
      info := Position(symbol, 0.0, 0.0);
      line := None;
      var arrow := LevelMarkerFor(None, 1.0, pathBounds);
      marker := arrow;
      ppLabel := new Label(map[]);
      sizeLabel := new Label(map[EntrySize := 0.0]);
      new;
      ppLabel.Show();
      sizeLabel.Hide();
    }

    /** `level()`: the line's level, or 0 without a line; the marker's level accessor. */
    function Level(): (r: real)
      reads this, Repr()
      ensures Valid() ==> r == TrackerSpec.Level(Snap())
    {
      if line.Some? then line.value.level else 0.0
    }

    /** `position_line`: create the line at `level`, store it, and set the
        marker's glyph from the size's sign, its level, and show it. */
    method PositionLine(size: real, level: real) returns (created: LevelLine)
      requires Valid() && size != 0.0
      modifies this, marker
      ensures Valid() && fresh(created) && line == Some(created)
      ensures Repr() == old(Repr()) - Elements(old(line)) + {created}
      ensures info == old(info)
      ensures Snap() == TrackerSpec.PositionLine(old(Snap()), size, level)
      ensures marker.pos == old(marker.pos)
    {
      created := new LevelLine(level);
      line := Some(created);
      marker.SetStyle(StyleFor(size));
      marker.level := level;
      marker.Show();
      created.SetLevel(level);
    }

    /** `update_line`: create, move or delete the line. */
    method UpdateLine(price: real, size: real)
      requires Valid()
      modifies Repr()
      ensures Valid() && fresh(Repr() - old(Repr())) && info == old(info)
      ensures Snap() == TrackerSpec.UpdateLine(old(Snap()), price, size)
      ensures sizeLabel.fields == old(sizeLabel.fields) && ppLabel.fields == old(ppLabel.fields)
      ensures line.Some? <==> size != 0.0
      ensures old(line).Some? && size != 0.0 ==> line == old(line)
      ensures old(line).None? && size != 0.0 ==> line.Some? && fresh(line.value)
      ensures old(line).Some? && size == 0.0 ==> !old(line).value.alive
      ensures marker.pos == old(marker.pos)
    {
      var current := line;
      if current.None? && size != 0.0 {
        var created := PositionLine(size, price);
        line := Some(created);
        created.Show();
      } else if current.Some? {
        if size != 0.0 {
          current.value.SetLevel(price);
          marker.level := price;
          current.value.Show();
        } else {
          current.value.Delete();
          line := None;
        }
      }
    }

    /** `show()`: for an open position, show line, marker and both labels. */
    method Show()
      requires Valid() && (info.size != 0.0 ==> line.Some?)
      modifies Repr()
      ensures Valid() && Repr() == old(Repr()) && info == old(info) && line == old(line)
      ensures Snap() == TrackerSpec.Show(old(Snap()))
      ensures sizeLabel.fields == old(sizeLabel.fields) && ppLabel.fields == old(ppLabel.fields)
      ensures info.size == 0.0 ==> Snap() == old(Snap())
      ensures marker.pos == old(marker.pos)
    {
      if info.size != 0.0 {
        line.value.Show();
        marker.Show();
        ppLabel.Show();
        sizeLabel.Show();
      }
    }

    /** `hide()`: hide marker and both labels, and the line if present. */
    method Hide()
      requires Valid()
      modifies Repr()
      ensures Valid() && Repr() == old(Repr()) && info == old(info) && line == old(line)
      ensures Snap() == TrackerSpec.Hide(old(Snap()))
      ensures sizeLabel.fields == old(sizeLabel.fields) && ppLabel.fields == old(ppLabel.fields)
      ensures marker.pos == old(marker.pos)
    {
      ppLabel.Hide();
      marker.Hide();
      sizeLabel.Hide();
      if line.Some? {
        line.value.Hide();
      }
    }

    /** `hide_info()`: hide the size label. */
    method HideInfo()
      requires Valid()
      modifies sizeLabel
      ensures Valid() && Snap() == TrackerSpec.HideInfo(old(Snap()))
      ensures sizeLabel.fields == old(sizeLabel.fields)
    {
      sizeLabel.Hide();
    }

    /** `update(msg)`: apply a position message. Afterwards a line exists
        exactly when the size is nonzero, at the average price like the
        marker; an existing line is reused, never duplicated. */
    method Update(msg: PositionMsg)
      requires Valid()
      modifies Repr()
      ensures Valid() && fresh(Repr() - old(Repr()))
      ensures Snap() == TrackerSpec.Update(old(Snap()), msg)
      ensures info == old(info).(avgPrice := msg.avgPrice, size := msg.size)
      ensures sizeLabel.fields == old(sizeLabel.fields)[EntrySize := msg.size]
      ensures ppLabel.fields == old(ppLabel.fields)
      ensures line.Some? <==> msg.size != 0.0
      ensures line.Some? ==> line.value.level == msg.avgPrice && Level() == msg.avgPrice
      ensures line.Some? ==> marker.level == msg.avgPrice
      ensures old(line).Some? && msg.size != 0.0 ==> line == old(line)
      ensures old(line).None? && msg.size != 0.0 ==> line.Some? && fresh(line.value)
      ensures old(line).Some? && msg.size == 0.0 ==> !old(line).value.alive
      ensures marker.pos == old(marker.pos)
    {
      info := info.(avgPrice := msg.avgPrice, size := msg.size);
      UpdateLine(msg.avgPrice, msg.size);
      sizeLabel.SetField(EntrySize, msg.size);
      if msg.size == 0.0 {
        Hide();
      } else {
        marker.level := msg.avgPrice;
        Show();
      }
    }

    /** `align_to_marker()`: a point left of the marker by the size label's
        width `sizeLabelWidth`, level with it; the origin without a line. */
    function AlignToMarker(sizeLabelWidth: real): (p: Point)
      reads this, marker
      ensures line.None? ==> p == Origin
      ensures line.Some? ==> p.y == marker.pos.y && p.x + sizeLabelWidth == marker.pos.x
    {
      if line.Some? then Point(marker.pos.x - sizeLabelWidth, marker.pos.y) else Origin
    }

    /** The marker's `position_in_view`, connected to view-range changes:
        it pulls the tracker's current `level()` at the moment it runs. */
    method OnRangeChanged(ymin: real, ymax: real, viewHeight: real, mappedY: real, x: real)
      requires Valid()
      modifies marker`pos
      ensures Valid()
      ensures marker.pos == Point(x, PinnedY(Level(), ymin, ymax, marker.H(), viewHeight, mappedY))
      ensures line.Some? ==>
                forall w :: AlignToMarker(w) == Point(x - w, PinnedY(Level(), ymin, ymax, marker.H(), viewHeight, mappedY))
      ensures line.Some? && ymin < ymax && 0.0 <= marker.H() && 4.0 / 3.0 * marker.H() <= viewHeight &&
              mappedY == LinearY(Level(), ymin, ymax, viewHeight) ==>
                forall w :: 0.0 <= AlignToMarker(w).y <= viewHeight
    {
      marker.PositionInView(Level(), ymin, ymax, viewHeight, mappedY, x);
      if line.Some? && ymin < ymax && 0.0 <= marker.H() && 4.0 / 3.0 * marker.H() <= viewHeight &&
         mappedY == LinearY(Level(), ymin, ymax, viewHeight) {
        KeepInViewAnchorOnScreen(Level(), ymin, ymax, marker.H(), viewHeight);
      }
    }
  }

  /** Long 5 at 100, then flat: the line appears at 100 with the long
      glyph and everything shown, then is deleted and everything hidden. */
  method ScenarioOpenThenClose(pathBounds: Style -> Rect)
    requires pathBounds(Up) != Rect(0.0, 0.0)
  {
    var t := new PositionTracker("X", pathBounds);
    t.Update(PositionMsg(100.0, 5.0));
    assert t.line.Some? && t.line.value.level == 100.0 && t.line.value.visible;
    assert t.marker.style == Up && t.marker.visible;
    assert t.sizeLabel.fields[EntrySize] == 5.0 && t.sizeLabel.visible && t.ppLabel.visible;
    var first := t.line.value;
    t.Update(PositionMsg(100.0, 0.0));
    assert t.line.None? && !first.alive;
    assert t.marker.inScene && t.marker.keepInView;
    assert !t.marker.visible && !t.ppLabel.visible && !t.sizeLabel.visible;
  }

  /** Short 3 at 50, then short 3 at 52: the same line moves from 50 to
      52 and the short glyph stays. */
  method ScenarioMoveShort(pathBounds: Style -> Rect)
    requires pathBounds(Up) != Rect(0.0, 0.0)
  {
    var t := new PositionTracker("X", pathBounds);
    t.Update(PositionMsg(50.0, -3.0));
    var first := t.line.value;
    assert first.level == 50.0 && t.marker.style == Down;
    t.Update(PositionMsg(52.0, -3.0));
    assert t.line == Some(first) && first.level == 52.0 && t.marker.style == Down;
    t.Update(PositionMsg(52.0, -3.0));
    assert t.line == Some(first);
  }
}
