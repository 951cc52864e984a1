/**
 * The on-screen event queue of the visualiser (src/main.rs): each decoded
 * payload becomes an `Event` that drifts vertically from one edge of a band
 * around the window towards the other; the `EventList` holds at most
 * `NUM_EVENTS` of them, drops those that have left the band and steps the
 * others once per frame.
 *
 * Coordinates and velocities are integers in hundredths of a pixel, so that
 * the source's velocity `(draw / 100) * 15` pixels is exactly `15 * draw`
 * units; the window rectangle is given in the same unit.
 */
module EventQueue {
  import opened Json

  /** Capacity of the queue. */
  const NUM_EVENTS: nat := 20

  /** Model units per pixel. */
  const UNITS_PER_PIXEL: int := 100

  /** How far beyond the window (1500 pixels) an event may be before it is dropped. */
  const VARIATION: int := 1500 * UNITS_PER_PIXEL

  /** Velocity in model units per unit of the vertical random draw. */
  const SPEED_FACTOR: int := 15

  datatype Vec2 = Vec2(x: int, y: int) {
    function Plus(d: Vec2): Vec2 {
      Vec2(x + d.x, y + d.y)
    }
  }

  /** The window rectangle: `left..right` horizontally, `bottom..top` vertically. */
  datatype Rect = Rect(left: int, right: int, bottom: int, top: int)

  /** An event at height `y` is kept by `update` exactly when this holds. */
  predicate InBand(y: int, w: Rect): (b: bool)
    ensures b <==> w.bottom - VARIATION <= y <= w.top + VARIATION
  {
    !(y > w.top + VARIATION || y < w.bottom - VARIATION)
  }

  // ---------------------------------------------------------------------
  // The arithmetic of `Event::new`
  // ---------------------------------------------------------------------

  /**
   * Upper (exclusive) end of the range the display length is drawn from,
   * for a serialised payload of `len` bytes. For `len == 0` the source's
   * `len - 1` underflows; the value -1 here makes the draw range empty,
   * which is where the source panics as well.
   */
  function SliceMax(len: nat): (m: int)
    ensures m <= 150 && m <= len
    ensures len >= 150 ==> m == 150
  {
    if len >= 150 then 150 else len - 1
  }

  /** No display length can be drawn for a payload shorter than 102 bytes. */
  lemma ShortPayloadHasNoDraw(len: nat, draw: int)
    requires len < 102
    ensures !(100 <= draw < SliceMax(len))
  {
  }

  /** The text an event shows: the first `sliceDraw` characters of its payload. */
  function DisplayText(serialised: string, sliceDraw: int): (r: string)
    requires 100 <= sliceDraw < SliceMax(|serialised|)
    ensures |r| == sliceDraw
    ensures 100 <= |r| < 150
    ensures |r| < |serialised| && r == serialised[..|r|]
  {
    serialised[..sliceDraw]
  }

  /** The velocity drawn from `yDraw` in `-80..80`: vertical only, with the sign of the draw. */
  function Velocity(yDraw: int): (v: Vec2)
    requires -80 <= yDraw < 80
    ensures v.x == 0
    ensures v.y > 0 <==> yDraw > 0
    ensures v.y == 0 <==> yDraw == 0
    ensures -80 * SPEED_FACTOR <= v.y < 80 * SPEED_FACTOR
  {
    Vec2(0, SPEED_FACTOR * yDraw)
  }

  /** The starting height: the band edge opposite the direction of travel. */
  function StartY(vy: int, w: Rect): (y: int)
    ensures vy > 0 ==> y == w.bottom - VARIATION
    ensures vy <= 0 ==> y == w.top + VARIATION
  {
    if vy > 0 then w.bottom - VARIATION else w.top + VARIATION
  }

  /** A new event starts inside the band (on its edge), so its first `update` keeps it. */
  lemma StartIsInBand(vy: int, w: Rect)
    requires w.bottom <= w.top
    ensures InBand(StartY(vy, w), w)
    ensures StartY(vy, w) == w.bottom - VARIATION || StartY(vy, w) == w.top + VARIATION
  {
  }

  // ---------------------------------------------------------------------
  // Events
  // ---------------------------------------------------------------------

  /**
   * One event on screen. The deque owns its events outright (no event is
   * shared between two places), so an event is a value and `step` through
   * `&mut self.events[i]` is an update of the element at that index.
   */
  datatype Event = Event(json: Json, text: string, centre: Vec2, velocity: Vec2) {
    /** `Event::step`: the centre moves by one velocity; nothing else changes. */
    function Step(): (e: Event)
      ensures e.centre == centre.Plus(velocity)
      ensures e.json == json && e.text == text && e.velocity == velocity
    {
      this.(centre := centre.Plus(velocity))
    }
  }

  /** What every event built by `Event::new` satisfies, and `step` keeps. */
  predicate WellFormed(e: Event) {
    e.velocity.x == 0 && 100 <= |e.text| < 150
  }

  /**
   * `Event::new`: the display text is a prefix of the serialised payload of
   * the drawn length, the velocity is vertical with the sign of the vertical
   * draw, and the event starts on the band edge it moves away from, at the
   * drawn horizontal position in the window.
   */
  function NewEvent(json: Json, serialise: Json -> string, sliceDraw: int, yDraw: int,
                    xDraw: int, w: Rect): (e: Event)
    requires 100 <= sliceDraw < SliceMax(|serialise(json)|)
    requires -80 <= yDraw < 80
    requires w.left <= xDraw < w.right
    ensures WellFormed(e)
    ensures e.json == json
    ensures |e.text| == sliceDraw && e.text == serialise(json)[..sliceDraw]
    ensures e.velocity.y > 0 <==> yDraw > 0
    ensures e.centre.x == xDraw && w.left <= e.centre.x < w.right
    ensures e.velocity.y > 0 ==> e.centre.y == w.bottom - VARIATION
    ensures e.velocity.y <= 0 ==> e.centre.y == w.top + VARIATION
  {
    var velocity := Velocity(yDraw);
    Event(json, DisplayText(serialise(json), sliceDraw), Vec2(xDraw, StartY(velocity.y, w)), velocity)
  }

  lemma StepKeepsWellFormed(e: Event)
    requires WellFormed(e)
    ensures WellFormed(e.Step())
    ensures e.Step().centre.x == e.centre.x
  {
  }

  // ---------------------------------------------------------------------
  // One frame of `update`, on values
  // ---------------------------------------------------------------------

  /** Indices, in increasing order, of the events `update` keeps. */
  function BandIndices(s: seq<Event>, w: Rect): (r: seq<nat>)
    ensures |r| <= |s|
    ensures forall k :: 0 <= k < |r| ==> r[k] < |s|
    decreases |s|
  {
    if |s| == 0 then []
    else BandIndices(s[..|s| - 1], w) + if InBand(s[|s| - 1].centre.y, w) then [|s| - 1] else []
  }

  /** What one `update` makes of the queue `s`: the kept events, each stepped, in order. */
  function Tick(s: seq<Event>, w: Rect): (r: seq<Event>)
    ensures |r| <= |s|
    decreases |s|
  {
    if |s| == 0 then []
    else Tick(s[..|s| - 1], w) + if InBand(s[|s| - 1].centre.y, w) then [s[|s| - 1].Step()] else []
  }

  /** `n` consecutive updates against the same window. */
  function Ticks(s: seq<Event>, w: Rect, n: nat): seq<Event>
    decreases n
  {
    if n == 0 then s else Ticks(Tick(s, w), w, n - 1)
  }

  /** `BandIndices` lists positions in increasing order, so survivors keep their order. */
  lemma {:induction false} BandIndicesIncreasing(s: seq<Event>, w: Rect)
    ensures forall a, b :: 0 <= a < b < |BandIndices(s, w)| ==> BandIndices(s, w)[a] < BandIndices(s, w)[b]
    decreases |s|
  {
    if |s| > 0 {
      BandIndicesIncreasing(s[..|s| - 1], w);
    }
  }

  /** `BandIndices` picks exactly the in-band positions. */
  lemma {:induction false} BandIndicesExact(s: seq<Event>, w: Rect)
    ensures forall j :: 0 <= j < |s| ==> (InBand(s[j].centre.y, w) <==> j in BandIndices(s, w))
    decreases |s|
  {
    if |s| > 0 {
      var init := s[..|s| - 1];
      BandIndicesExact(init, w);
      assert forall j :: 0 <= j < |init| ==> init[j] == s[j];
    }
  }

  /** Every position is kept exactly when every event is in the band. */
  lemma {:induction false} BandIndicesAll(s: seq<Event>, w: Rect)
    ensures |BandIndices(s, w)| == |s| <==> forall j :: 0 <= j < |s| ==> InBand(s[j].centre.y, w)
    decreases |s|
  {
    if |s| > 0 {
      var init := s[..|s| - 1];
      BandIndicesAll(init, w);
      assert forall j :: 0 <= j < |init| ==> init[j] == s[j];
      if |BandIndices(s, w)| == |s| {
        assert InBand(s[|s| - 1].centre.y, w);
      }
    }
  }

  /**
   * The `k`-th survivor of a frame is the stepped `k`-th in-band event:
   * `update` removes exactly the out-of-band events, keeps the order of
   * the others and steps each of them once.
   */
  lemma {:induction false} TickIndexed(s: seq<Event>, w: Rect)
    ensures |Tick(s, w)| == |BandIndices(s, w)|
    ensures forall k :: 0 <= k < |Tick(s, w)| ==> Tick(s, w)[k] == s[BandIndices(s, w)[k]].Step()
    decreases |s|
  {
    if |s| > 0 {
      var init := s[..|s| - 1];
      TickIndexed(init, w);
      assert forall k :: 0 <= k < |BandIndices(init, w)| ==> s[BandIndices(init, w)[k]] == init[BandIndices(init, w)[k]];
    }
  }

  /** A frame never lengthens the queue, and shortens it unless every event is in the band. */
  lemma TickLength(s: seq<Event>, w: Rect)
    ensures |Tick(s, w)| <= |s|
    ensures |Tick(s, w)| == |s| <==> forall j :: 0 <= j < |s| ==> InBand(s[j].centre.y, w)
  {
    TickIndexed(s, w);
    BandIndicesAll(s, w);
  }

  /** Every stepped in-band event survives the frame, and nothing else is in it. */
  lemma TickMembers(s: seq<Event>, w: Rect)
    ensures forall j :: 0 <= j < |s| && InBand(s[j].centre.y, w) ==> s[j].Step() in Tick(s, w)
    ensures forall e :: e in Tick(s, w) ==> exists j :: 0 <= j < |s| && InBand(s[j].centre.y, w) && e == s[j].Step()
  {
    TickIndexed(s, w);
    BandIndicesExact(s, w);
    var t, idx := Tick(s, w), BandIndices(s, w);
    forall j | 0 <= j < |s| && InBand(s[j].centre.y, w)
      ensures s[j].Step() in t
    {
      var k :| 0 <= k < |idx| && idx[k] == j;
      assert t[k] == s[j].Step();
    }
    forall e | e in t
      ensures exists j :: 0 <= j < |s| && InBand(s[j].centre.y, w) && e == s[j].Step()
    {
      var k :| 0 <= k < |t| && t[k] == e;
      assert idx[k] in idx;
    }
  }

  /** A frame keeps every event well formed and moves none of them sideways. */
  lemma TickKeepsWellFormed(s: seq<Event>, w: Rect)
    requires forall j :: 0 <= j < |s| ==> WellFormed(s[j])
    ensures forall k :: 0 <= k < |Tick(s, w)| ==> WellFormed(Tick(s, w)[k])
    ensures |Tick(s, w)| == |BandIndices(s, w)|
    ensures forall k :: 0 <= k < |Tick(s, w)| ==> Tick(s, w)[k].centre.x == s[BandIndices(s, w)[k]].centre.x
  {
    TickIndexed(s, w);
  }

  /** An event just added by `add_event` survives the next `update` and is stepped by it. */
  lemma NewEventSurvivesFirstTick(s: seq<Event>, json: Json, serialise: Json -> string,
                                  sliceDraw: int, yDraw: int, xDraw: int, w: Rect)
    requires 100 <= sliceDraw < SliceMax(|serialise(json)|)
    requires -80 <= yDraw < 80
    requires w.left <= xDraw < w.right
    requires w.bottom <= w.top
    ensures Tick(s + [NewEvent(json, serialise, sliceDraw, yDraw, xDraw, w)], w)
         == Tick(s, w) + [NewEvent(json, serialise, sliceDraw, yDraw, xDraw, w).Step()]
  {
    var e := NewEvent(json, serialise, sliceDraw, yDraw, xDraw, w);
    assert (s + [e])[..|s|] == s;
    StartIsInBand(e.velocity.y, w);
  }

  /** An in-band event whose velocity is zero is never removed, however many frames pass. */
  lemma {:induction false} MotionlessNeverRemoved(s: seq<Event>, w: Rect, n: nat, e: Event)
    requires e in s && e.velocity == Vec2(0, 0) && InBand(e.centre.y, w)
    ensures e in Ticks(s, w, n)
    decreases n
  {
    if n > 0 {
      var j :| 0 <= j < |s| && s[j] == e;
      TickMembers(s, w);
      assert e.Step() == e;
      MotionlessNeverRemoved(Tick(s, w), w, n - 1, e);
    }
  }

  /** An event that a frame steps out of the band makes the following frame shorten the queue. */
  lemma LeavesOnNextTick(s: seq<Event>, w: Rect, j: nat)
    requires j < |s| && InBand(s[j].centre.y, w) && !InBand(s[j].Step().centre.y, w)
    ensures s[j].Step() in Tick(s, w)
    ensures |Tick(Tick(s, w), w)| < |Tick(s, w)|
  {
    TickMembers(s, w);
    var t := Tick(s, w);
    var k :| 0 <= k < |t| && t[k] == s[j].Step();
    TickLength(t, w);
  }

  /** The step from one prefix of the input to the next, as the loop of `update` takes it. */
  lemma TickSnoc(s: seq<Event>, w: Rect, j: nat)
    requires j < |s|
    ensures Tick(s[..j + 1], w) == Tick(s[..j], w) + if InBand(s[j].centre.y, w) then [s[j].Step()] else []
  {
    assert s[..j + 1][..j] == s[..j];
  }

  // ---------------------------------------------------------------------
  // The queue
  // ---------------------------------------------------------------------

  /** `EventList`: the events on screen, oldest first. Colour and font are left out. */
  class EventList {
    var events: seq<Event>

    ghost predicate Valid()
      reads this
    {
      |events| <= NUM_EVENTS && forall k :: 0 <= k < |events| ==> WellFormed(events[k])
    }

    /** `EventList::new`: an empty queue. */
    constructor ()
      ensures Valid() && events == []
    {
      events := [];
    }

    /**
     * `add_event`: when the queue has room, the event built by `Event::new`
     * from the payload and the random draws is appended; a full queue
     * ignores the payload. The draws only need to be in range when the
     * event is built.
     */
    method AddEvent(json: Json, serialise: Json -> string, sliceDraw: int, yDraw: int,
                    xDraw: int, w: Rect)
      requires Valid()
      requires |events| < NUM_EVENTS ==>
        100 <= sliceDraw < SliceMax(|serialise(json)|) && -80 <= yDraw < 80 && w.left <= xDraw < w.right
      modifies this
      ensures Valid()
      ensures old(|events|) == NUM_EVENTS ==> events == old(events)
      ensures old(|events|) < NUM_EVENTS ==>
        events == old(events) + [NewEvent(json, serialise, sliceDraw, yDraw, xDraw, w)]
    {
      if |events| < NUM_EVENTS {
        events := events + [NewEvent(json, serialise, sliceDraw, yDraw, xDraw, w)];
      }
    }

    /**
     * `update`: walk the queue by index; an event outside the band is
     * removed in place (the index stays), any other is stepped and the
     * index advances.
     */
    method Update(w: Rect)
      requires Valid()
      modifies this
      ensures Valid()
      ensures events == Tick(old(events), w)
    {
      ghost var o := events;
      ghost var j := 0;
      var i := 0;
      while i < |events|
        invariant Scan(events, o, w, j, i)
        decreases |events| - i
      {
        var e := events[i];
        if e.centre.y > w.top + VARIATION || e.centre.y < w.bottom - VARIATION {
          ScanDrop(events, o, w, j, i);
          events := events[..i] + events[i + 1..];
        } else {
          ScanKeep(events, o, w, j, i);
          events := events[i := e.Step()];
          i := i + 1;
        }
        j := j + 1;
      }
      ScanDone(events, o, w, j, i);
    }
  }

  /**
   * Mid-way through `update`: the first `j` events of the original queue
   * `o` have been dealt with, leaving their frame's result in front of the
   * untouched rest, and the index `i` points just past that result.
   */
  predicate Scan(events: seq<Event>, o: seq<Event>, w: Rect, j: nat, i: nat) {
    j <= |o| && i == |Tick(o[..j], w)| && events == Tick(o[..j], w) + o[j..]
  }

  /** Removing an out-of-band event at the index keeps the scan's shape, one event further. */
  lemma ScanDrop(events: seq<Event>, o: seq<Event>, w: Rect, j: nat, i: nat)
    requires Scan(events, o, w, j, i) && i < |events|
    requires !InBand(events[i].centre.y, w)
    ensures Scan(events[..i] + events[i + 1..], o, w, j + 1, i)
  {
    TickSnoc(o, w, j);
    assert o[j..][1..] == o[j + 1..];
    SpliceRemove(Tick(o[..j], w), o[j..]);
  }

  /** Stepping an in-band event at the index keeps the scan's shape, one event further. */
  lemma ScanKeep(events: seq<Event>, o: seq<Event>, w: Rect, j: nat, i: nat)
    requires Scan(events, o, w, j, i) && i < |events|
    requires InBand(events[i].centre.y, w)
    ensures Scan(events[i := events[i].Step()], o, w, j + 1, i + 1)
  {
    TickSnoc(o, w, j);
    assert o[j..][1..] == o[j + 1..];
    SpliceUpdate(Tick(o[..j], w), o[j..], events[i].Step());
  }

  /** At the end of the scan the queue is one frame of the original. */
  lemma ScanDone(events: seq<Event>, o: seq<Event>, w: Rect, j: nat, i: nat)
    requires Scan(events, o, w, j, i) && i >= |events|
    requires |o| <= NUM_EVENTS && forall k :: 0 <= k < |o| ==> WellFormed(o[k])
    ensures events == Tick(o, w)
    ensures |events| <= NUM_EVENTS && forall k :: 0 <= k < |events| ==> WellFormed(events[k])
  {
    assert o[..j] == o;
    TickLength(o, w);
    TickKeepsWellFormed(o, w);
  }

  /** Removing the element just past a prefix `d` of `d + r`. */
  lemma SpliceRemove<T>(d: seq<T>, r: seq<T>)
    requires |r| > 0
    ensures (d + r)[..|d|] + (d + r)[|d| + 1..] == d + r[1..]
  {
    assert (d + r)[..|d|] == d;
    assert (d + r)[|d| + 1..] == r[1..];
  }

  /** Replacing the element just past a prefix `d` of `d + r` by `x`. */
  lemma SpliceUpdate<T>(d: seq<T>, r: seq<T>, x: T)
    requires |r| > 0
    ensures (d + r)[|d| := x] == (d + [x]) + r[1..]
  {
  }
}
