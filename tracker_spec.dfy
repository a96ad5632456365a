/** The observable state of a `PositionTracker` as a value, and the
    transitions its methods perform on it. The imperative classes in
    module Tracker are proved to follow these functions; the properties
    of the update protocol are proved here, over single updates and over
    arbitrary runs of updates. */
module TrackerSpec {
  import opened Wrappers
  import opened Marker

  /** The position snapshot: instrument, signed size, average entry price. */
  datatype Position = Position(symbol: string, size: real, avgPrice: real)

  /** The two fields of an inbound position message that the tracker reads. */
  datatype PositionMsg = PositionMsg(avgPrice: real, size: real)

  /** What the tracker's level line shows: its price level and visibility. */
  datatype LineView = LineView(level: real, visible: bool)

  /** Everything the tracker decides: the position, the optional line,
      the marker's style, level and visibility, the visibility of the
      `pp` label and of the size label, and the size label's
      `entry_size` field. */
  datatype Snapshot = Snapshot(
    info: Position,
    line: Option<LineView>,
    markerStyle: Style,
    markerLevel: real,
    markerVisible: bool,
    ppVisible: bool,
    sizeVisible: bool,
    entrySize: real)

  /** Glyph for a nonzero size; the source leaves it unbound at size 0. */
  function StyleFor(size: real): (st: Style)
    requires size != 0.0
    ensures st == Up <==> size > 0.0
    ensures st == Down <==> size < 0.0
  {
    if size > 0.0 then Up else Down
  }

  /** A direct change of side, from long to short or back, without passing through flat. */
  predicate DirectFlip(before: real, after: real)
  {
    (before > 0.0 && after < 0.0) || (before < 0.0 && after > 0.0)
  }

  /** The tracker invariant: a line exists exactly when the size is
      nonzero, and then the line and the marker both sit at the average price. */
  predicate Consistent(s: Snapshot)
  {
    (s.line.Some? <==> s.info.size != 0.0) &&
    (s.line.Some? ==> s.line.value.level == s.info.avgPrice && s.markerLevel == s.info.avgPrice)
  }

  /** What is on screen after an update: everything shown for an open
      position; marker and both labels hidden for a flat one. */
  predicate Displayed(s: Snapshot)
  {
    if s.info.size != 0.0 then
      s.line.Some? && s.line.value.visible && s.markerVisible && s.ppVisible && s.sizeVisible
    else
      !s.markerVisible && !s.ppVisible && !s.sizeVisible
  }

  /** The marker's glyph points the way of the position whenever a line is drawn. */
  predicate StyleTracksSign(s: Snapshot)
  {
    s.line.Some? && s.info.size != 0.0 ==> s.markerStyle == StyleFor(s.info.size)
  }

  /** State right after construction: a zeroed position, no line, the
      placeholder marker built for size 1 and shown, the `pp` label
      shown and the size label hidden with `entry_size` 0. */
  function Init(symbol: string): (r: Snapshot)
    ensures Consistent(r) && r.line.None? && Level(r) == 0.0
    ensures r.info == Position(symbol, 0.0, 0.0) && r.entrySize == 0.0
    ensures r.markerStyle == Up && r.markerVisible && r.ppVisible && !r.sizeVisible
  {
    Snapshot(Position(symbol, 0.0, 0.0), None, StyleFor(1.0), 0.0, true, true, false, 0.0)
  }

  /** `level()`: the line's level, or 0 without a line. */
  function Level(s: Snapshot): (r: real)
    ensures Consistent(s) ==> r == if s.info.size != 0.0 then s.info.avgPrice else 0.0
  {
    if s.line.Some? then s.line.value.level else 0.0
  }

  /** `position_line`: a new line at `level`, not yet shown; the marker
      takes the glyph of the size's sign and the level, and is shown. */
  function PositionLine(s: Snapshot, size: real, level: real): (r: Snapshot)
    requires size != 0.0
    ensures r.line == Some(LineView(level, false)) && Level(r) == level
    ensures r.markerStyle == StyleFor(size) && r.markerLevel == level && r.markerVisible
    ensures r.info == s.info && r.ppVisible == s.ppVisible && r.sizeVisible == s.sizeVisible
    ensures r.entrySize == s.entrySize
  {
    s.(line := Some(LineView(level, false)), markerStyle := StyleFor(size),
       markerLevel := level, markerVisible := true)
  }

  /** `update_line`: the four transitions of the line state machine. */
  function UpdateLine(s: Snapshot, price: real, size: real): (r: Snapshot)
    ensures r.line.Some? <==> size != 0.0
    ensures r.line.Some? ==> r.line.value == LineView(price, true) && r.markerLevel == price
    ensures s.line.None? && size != 0.0 ==> r.markerStyle == StyleFor(size) && r.markerVisible
    ensures s.line.Some? || size == 0.0 ==> r.markerStyle == s.markerStyle && r.markerVisible == s.markerVisible
    ensures size == 0.0 ==> r.markerLevel == s.markerLevel
    ensures r.info == s.info && r.ppVisible == s.ppVisible && r.sizeVisible == s.sizeVisible
    ensures r.entrySize == s.entrySize
  {
    if s.line.None? && size != 0.0 then
      // no line, open position: create the line and show it
      var t := PositionLine(s, size, price);
      t.(line := Some(t.line.value.(visible := true)))
    else if s.line.Some? then
      if size != 0.0 then
        // line present, open position: move the same line and the marker
        s.(line := Some(s.line.value.(level := price, visible := true)), markerLevel := price)
      else
        // line present, flat position: delete the line
        s.(line := None)
    else
      s
  }

  /** `show()`: shows line, marker and both labels, unless the position is
      flat, when nothing changes. It dereferences the line when the size is
      nonzero, so a line must exist then. */
  function Show(s: Snapshot): (r: Snapshot)
    requires s.info.size != 0.0 ==> s.line.Some?
    ensures s.info.size == 0.0 ==> r == s
    ensures s.info.size != 0.0 ==>
      r.line.Some? && r.line.value.visible && r.markerVisible && r.ppVisible && r.sizeVisible
    ensures Level(r) == Level(s) && r.line.Some? == s.line.Some?
    ensures r.info == s.info && r.markerStyle == s.markerStyle && r.markerLevel == s.markerLevel
    ensures r.entrySize == s.entrySize
  {
    if s.info.size != 0.0 then
      s.(line := Some(s.line.value.(visible := true)), markerVisible := true,
         ppVisible := true, sizeVisible := true)
    else
      s
  }

  /** `hide()`: hides marker and both labels, and the line if there is one. */
  function Hide(s: Snapshot): (r: Snapshot)
    ensures !r.markerVisible && !r.ppVisible && !r.sizeVisible
    ensures r.line.Some? ==> !r.line.value.visible
    ensures Level(r) == Level(s) && r.line.Some? == s.line.Some?
    ensures r.info == s.info && r.markerStyle == s.markerStyle && r.markerLevel == s.markerLevel
    ensures r.entrySize == s.entrySize
  {
    s.(line := if s.line.Some? then Some(s.line.value.(visible := false)) else None,
       markerVisible := false, ppVisible := false, sizeVisible := false)
  }

  /** `hide_info()`: hides the size label only. */
  function HideInfo(s: Snapshot): (r: Snapshot)
    ensures !r.sizeVisible && r.(sizeVisible := s.sizeVisible) == s
  {
    s.(sizeVisible := false)
  }

  /** `update(msg)`: store the message in the position, run the line state
      machine, set `entry_size`, then hide everything for a flat position or
      move the marker to the average price and show everything. */
  function Update(s: Snapshot, m: PositionMsg): (r: Snapshot)
    ensures r.info == s.info.(avgPrice := m.avgPrice, size := m.size)
    ensures r.entrySize == m.size
    ensures Consistent(r) && Displayed(r)
    ensures Level(r) == if m.size != 0.0 then m.avgPrice else 0.0
  {
    var s1 := s.(info := s.info.(avgPrice := m.avgPrice, size := m.size));
    var s2 := UpdateLine(s1, m.avgPrice, m.size).(entrySize := m.size);
    if m.size == 0.0 then Hide(s2) else Show(s2.(markerLevel := m.avgPrice))
  }

  /** The state after a sequence of position messages, applied in order. */
  function Run(s: Snapshot, msgs: seq<PositionMsg>): Snapshot
    decreases |msgs|
  {
    if |msgs| == 0 then s else Run(Update(s, msgs[0]), msgs[1..])
  }

  /** No two consecutive sizes in the run, starting from `size`, change side directly. */
  predicate NoDirectFlips(size: real, msgs: seq<PositionMsg>)
    decreases |msgs|
  {
    |msgs| == 0 || (!DirectFlip(size, msgs[0].size) && NoDirectFlips(msgs[0].size, msgs[1..]))
  }

  /** Updating twice with the same message is the same as updating once. */
  lemma UpdateIdempotent(s: Snapshot, m: PositionMsg)
    ensures Update(Update(s, m), m) == Update(s, m)
  {
  }

  /** Whatever the messages, the invariant holds after every run that
      starts from a consistent state, and the display is settled after
      any nonempty run. */
  lemma {:induction false} RunConsistent(s: Snapshot, msgs: seq<PositionMsg>)
    requires Consistent(s)
    ensures Consistent(Run(s, msgs))
    ensures |msgs| > 0 ==> Displayed(Run(s, msgs))
    decreases |msgs|
  {
    if |msgs| > 0 {
      RunConsistent(Update(s, msgs[0]), msgs[1..]);
    }
  }

  /** After a nonempty run, the position, `entry_size` and `level()` are
      those of the last message. */
  lemma {:induction false} RunReflectsLastMessage(s: Snapshot, msgs: seq<PositionMsg>)
    requires |msgs| > 0
    ensures var r, m := Run(s, msgs), msgs[|msgs| - 1];
            r.info == s.info.(avgPrice := m.avgPrice, size := m.size) &&
            r.entrySize == m.size &&
            Level(r) == (if m.size != 0.0 then m.avgPrice else 0.0)
    decreases |msgs|
  {
    if |msgs| > 1 {
      RunReflectsLastMessage(Update(s, msgs[0]), msgs[1..]);
      assert msgs[1..][|msgs[1..]| - 1] == msgs[|msgs| - 1];
    }
  }

  /** One update keeps the glyph pointing the way of the position exactly
      when the update does not change side directly: the glyph is chosen
      only when a line is created, so a direct long/short flip keeps the old glyph. */
  lemma StyleTracksSignIffNoFlip(s: Snapshot, m: PositionMsg)
    requires Consistent(s) && StyleTracksSign(s)
    ensures StyleTracksSign(Update(s, m)) <==> !DirectFlip(s.info.size, m.size)
  {
  }

  /** Over a run with no direct flip, the glyph always points the way of the position. */
  lemma {:induction false} RunStyleTracksSign(s: Snapshot, msgs: seq<PositionMsg>)
    requires Consistent(s) && StyleTracksSign(s) && NoDirectFlips(s.info.size, msgs)
    ensures StyleTracksSign(Run(s, msgs))
    decreases |msgs|
  {
    if |msgs| > 0 {
      StyleTracksSignIffNoFlip(s, msgs[0]);
      RunStyleTracksSign(Update(s, msgs[0]), msgs[1..]);
    }
  }

  /** Going long 5 at 100 and then directly short 3 leaves the long glyph on a short position. */
  lemma DirectFlipKeepsLongGlyph(symbol: string)
    ensures var r := Run(Init(symbol), [PositionMsg(100.0, 5.0), PositionMsg(100.0, -3.0)]);
            r.info.size == -3.0 && r.line.Some? && r.markerStyle == Up
  {
  }
}
