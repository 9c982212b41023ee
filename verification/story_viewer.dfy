/** The full-screen story viewer: a slide index moved by the left and right
    tap areas, where a tap past the last slide closes the viewer. */
module StoryViewer {

  /** `currentSlide`; the slide list is passed to each move. */
  datatype Viewer = Viewer(current: int)

  const Opened: Viewer := Viewer(0)

  /** The result of a tap on the right: the new viewer, and whether the
      tap called `onClose` instead of moving. */
  datatype Advanced = Advanced(viewer: Viewer, closed: bool)

  /** `goToNext` over a list of `count` slides. */
  function Next(v: Viewer, count: nat): (r: Advanced)
    ensures r.closed <==> v.current >= count - 1
    ensures r.closed ==> r.viewer == v
    ensures !r.closed ==> r.viewer.current == v.current + 1
  {
    if v.current < count - 1 then Advanced(Viewer(v.current + 1), false)
    else Advanced(v, true)
  }

  /** `goToPrevious` */
  function Previous(v: Viewer): (w: Viewer)
    ensures v.current > 0 ==> w.current == v.current - 1
    ensures v.current <= 0 ==> w == v
  {
    if v.current > 0 then Viewer(v.current - 1) else v
  }

  /** The index names a slide. */
  predicate InRange(v: Viewer, count: nat) {
    0 <= v.current < count
  }

  /** Neither move can leave the slide list. */
  lemma MovesStayInRange(v: Viewer, count: nat)
    requires InRange(v, count)
    ensures InRange(Next(v, count).viewer, count)
    ensures InRange(Previous(v), count)
  {
  }

  /** Opening a non-empty story starts inside it. */
  lemma OpenedInRange(count: nat)
    requires count > 0
    ensures InRange(Opened, count)
  {
  }

  /** Back undoes a forward move that did not close the viewer. */
  lemma PreviousUndoesNext(v: Viewer, count: nat)
    requires v.current >= 0
    requires !Next(v, count).closed
    ensures Previous(Next(v, count).viewer) == v
  {
  }

  /** `count - 1` forward taps from the opening slide reach the last slide
      without closing; one more closes. */
  function Forward(v: Viewer, count: nat, taps: nat): (r: Advanced)
    decreases taps
  {
    if taps == 0 then Advanced(v, false)
    else
      var a := Next(v, count);
      if a.closed then a else Forward(a.viewer, count, taps - 1)
  }

  lemma {:induction false} ForwardWalk(v: Viewer, count: nat, taps: nat)
    requires 0 <= v.current && v.current + taps < count
    ensures Forward(v, count, taps) == Advanced(Viewer(v.current + taps), false)
    decreases taps
  {
    if taps > 0 {
      ForwardWalk(Viewer(v.current + 1), count, taps - 1);
    }
  }

  lemma ReadingThroughCloses(count: nat)
    requires count > 0
    ensures Forward(Opened, count, count - 1) == Advanced(Viewer(count - 1), false)
    ensures Next(Viewer(count - 1), count).closed
  {
    ForwardWalk(Opened, count, count - 1);
  }

  /** The progress bars: bar `i` is active when `i <= currentSlide`. */
  function ProgressBars(v: Viewer, count: nat): (bars: seq<bool>)
    ensures |bars| == count
  {
    seq(count, i requires 0 <= i < count => i <= v.current)
  }

  function CountActive(bars: seq<bool>): nat
    decreases |bars|
  {
    if |bars| == 0 then 0
    else CountActive(bars[..|bars| - 1]) + (if bars[|bars| - 1] then 1 else 0)
  }

  /** With the index in range, exactly `currentSlide + 1` bars are lit. */
  lemma {:induction false} ActiveBarCount(v: Viewer, count: nat)
    requires v.current >= -1
    ensures CountActive(ProgressBars(v, count)) == if v.current < count then v.current + 1 else count
    decreases count
  {
    if count > 0 {
      var bars := ProgressBars(v, count);
      assert bars[..count - 1] == ProgressBars(v, count - 1);
      ActiveBarCount(v, count - 1);
    }
  }

  lemma ActiveBarsInRange(v: Viewer, count: nat)
    requires InRange(v, count)
    ensures CountActive(ProgressBars(v, count)) == v.current + 1
  {
    ActiveBarCount(v, count);
  }
}
