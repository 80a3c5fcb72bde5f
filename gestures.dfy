/**
 Whole gestures of the SlideTuning controller: a press, any number of moves,
 then a release or a context menu, and what each leaves behind.
 */
module Gestures {
  import opened JsNumber
  import opened Tuning

  /** The document pointermove events for a drag through pts. */
  function MoveCalls(pts: seq<Point>): seq<Call> {
    if pts == [] then [] else [PointerMove(pts[0])] + MoveCalls(pts[1..])
  }

  /** What a horizontal drag through pts hands the renderer: one preview per move, each from the press point x0. */
  function DragRenders(value: int, x0: int, pts: seq<Point>): seq<int> {
    if pts == [] then [] else [Increase(value, pts[0].x - x0)] + DragRenders(value, x0, pts[1..])
  }

  /** The preview after a drag through pts, from a state with a running gesture. */
  function DragPreview(s: Snapshot, pts: seq<Point>): Option<int>
    requires s.start.Some?
  {
    if s.direction.Horizontal? && pts != [] then Some(Increase(s.value, pts[|pts| - 1].x - s.start.value.x))
    else s.preview
  }

  /** The value a release commits after pressing at p and dragging through pts. */
  function CommittedAfter(s: Snapshot, p: Point, pts: seq<Point>): int {
    if s.direction.Horizontal? && pts != [] then Increase(s.value, pts[|pts| - 1].x - p.x) else s.value
  }

  /** After a press at p, the drag's last preview is the value a release would commit. */
  lemma CommittedIsLastPreview(s: Snapshot, s1: Snapshot, p: Point, pts: seq<Point>)
    requires s1.start == Some(p) && s1.value == s.value && s1.direction == s.direction
    requires s1.preview == Some(s.value)
    ensures DragPreview(s1, pts) == Some(CommittedAfter(s, p, pts))
  {
  }

  /** The events the controller listens for on the document. */
  predicate IsDocumentEvent(c: Call) {
    c.PointerMove? || c.PointerUp? || c.ContextMenu?
  }

  /** Running calls one list after another is running them concatenated. */
  lemma {:induction false} RunAppend(s: Snapshot, a: seq<Call>, b: seq<Call>)
    requires Inv(s)
    ensures Run(s, a + b) == Run(Run(s, a), b)
    decreases |a|
  {
    if a == [] {
      assert a + b == b;
    } else {
      assert (a + b)[0] == a[0];
      assert (a + b)[1..] == a[1..] + b;
      RunAppend(Apply(s, a[0]), a[1..], b);
    }
  }

  /** Running one call is applying it. */
  lemma RunOne(s: Snapshot, c: Call)
    requires Inv(s)
    ensures Run(s, [c]) == Apply(s, c)
  {
    assert [c][1..] == [];
  }

  /** A gesture is its press, then its moves, then the call that ends it. */
  lemma GestureSplit(s: Snapshot, p: Point, pts: seq<Point>, last: Call)
    requires Inv(s)
    ensures Run(s, [PointerDown(p)] + MoveCalls(pts) + [last])
         == Apply(Run(Apply(s, PointerDown(p)), MoveCalls(pts)), last)
  {
    RunAppend(s, [PointerDown(p)] + MoveCalls(pts), [last]);
    RunAppend(s, [PointerDown(p)], MoveCalls(pts));
    RunOne(s, PointerDown(p));
    RunOne(Run(Apply(s, PointerDown(p)), MoveCalls(pts)), last);
  }

  /**
   A press starts a gesture from any state: the start is the press point, the
   preview is the committed value, which stays, the active marker is added and
   all three document listeners are registered.
   */
  lemma PressStep(s: Snapshot, p: Point)
    requires Inv(s)
    ensures var r := Apply(s, PointerDown(p));
      && r.start == Some(p) && r.preview == Some(s.value) && r.value == s.value
      && r.markers == s.markers + {ActiveMarker} && r.listeners == GestureListeners
      && r.pressBound && r.rendered == s.rendered && r.direction == s.direction
  {
  }

  /**
   A release during a gesture commits the preview and ends the gesture: no
   preview, no active marker, no document listener; the start point and the
   render log stay.
   */
  lemma ReleaseStep(s: Snapshot, q: Point)
    requires Inv(s) && s.preview.Some?
    ensures var r := Apply(s, PointerUp(q));
      && r.value == s.preview.value && r.preview == None
      && r.markers == s.markers - {ActiveMarker} && r.listeners == {}
      && r.start == s.start && r.rendered == s.rendered
  {
  }

  /**
   A context menu during a gesture cancels it: the committed value stays and is
   rendered again, and the gesture ends with no preview, no active marker and
   no document listener.
   */
  lemma MenuStep(s: Snapshot, q: Point)
    requires Inv(s) && s.preview.Some?
    ensures var r := Apply(s, ContextMenu(q));
      && r.value == s.value && r.preview == None
      && r.markers == s.markers - {ActiveMarker} && r.listeners == {}
      && r.start == s.start && r.rendered == s.rendered + [s.value]
  {
  }

  /**
   One move during a gesture: a horizontal move sets the preview to the
   committed value plus the truncated tenth of the displacement from the press
   point and renders it; any other direction changes nothing. The committed
   value, the press point, the markers and the listeners stay.
   */
  lemma MoveStep(s: Snapshot, at: Point)
    requires Inv(s) && s.preview.Some?
    ensures var r := Apply(s, PointerMove(at));
      && r.value == s.value && r.start == s.start && r.markers == s.markers
      && r.listeners == s.listeners && r.pressBound == s.pressBound && r.direction == s.direction
      && r.preview.Some?
      && (s.direction.Horizontal? ==>
            var p := Increase(s.value, at.x - s.start.value.x);
            r.preview == Some(p) && r.rendered == s.rendered + [p])
      && (!s.direction.Horizontal? ==> r.preview == s.preview && r.rendered == s.rendered)
  {
  }

  /**
   During a gesture, moves change only the preview and the render log: the
   committed value, the press point, the markers and the listeners stay. The
   preview is that of the last move, measured from the press point; every
   horizontal move renders its preview; other directions render nothing.
   */
  lemma Drag(s: Snapshot, pts: seq<Point>)
    requires Inv(s) && s.preview.Some?
    ensures var r := Run(s, MoveCalls(pts));
      && r.value == s.value && r.start == s.start && r.markers == s.markers
      && r.listeners == s.listeners && r.pressBound == s.pressBound
      && r.preview == DragPreview(s, pts)
      && r.rendered == s.rendered + (if s.direction.Horizontal? then DragRenders(s.value, s.start.value.x, pts) else [])
  {
    DragKeeps(s, pts);
    DragOutput(s, pts);
  }

  /** The part of Drag about what moves leave alone. */
  lemma {:induction false} DragKeeps(s: Snapshot, pts: seq<Point>)
    requires Inv(s) && s.preview.Some?
    ensures var r := Run(s, MoveCalls(pts));
      && r.value == s.value && r.start == s.start && r.markers == s.markers
      && r.listeners == s.listeners && r.pressBound == s.pressBound && r.preview.Some?
    decreases |pts|
  {
    if pts != [] {
      RunFirstMove(s, pts);
      MoveStep(s, pts[0]);
      DragKeeps(Apply(s, PointerMove(pts[0])), pts[1..]);
    }
  }

  /** The part of Drag about the preview and the render log. */
  lemma {:induction false} DragOutput(s: Snapshot, pts: seq<Point>)
    requires Inv(s) && s.preview.Some?
    ensures var r := Run(s, MoveCalls(pts));
      && r.preview == DragPreview(s, pts)
      && r.rendered == s.rendered + (if s.direction.Horizontal? then DragRenders(s.value, s.start.value.x, pts) else [])
    decreases |pts|
  {
    if pts != [] {
      var s1 := Apply(s, PointerMove(pts[0]));
      RunFirstMove(s, pts);
      MoveStep(s, pts[0]);
      DragOutput(s1, pts[1..]);
      DragPreviewStep(s, s1, pts);
      if s.direction.Horizontal? {
        AppendRenders(s.rendered, s.value, s.start.value.x, pts);
      }
    }
  }

  /** After the first move, the rest of the drag ends at the same preview as the whole drag. */
  lemma DragPreviewStep(s: Snapshot, s1: Snapshot, pts: seq<Point>)
    requires pts != [] && s.start.Some?
    requires s1.start == s.start && s1.value == s.value && s1.direction == s.direction
    requires s.direction.Horizontal? ==> s1.preview == Some(Increase(s.value, pts[0].x - s.start.value.x))
    requires !s.direction.Horizontal? ==> s1.preview == s.preview
    ensures DragPreview(s1, pts[1..]) == DragPreview(s, pts)
  {
    if |pts| > 1 {
      assert pts[1..][|pts| - 2] == pts[|pts| - 1];
    }
  }

  /** A drag is its first move followed by the rest. */
  lemma RunFirstMove(s: Snapshot, pts: seq<Point>)
    requires Inv(s) && pts != []
    ensures Run(s, MoveCalls(pts)) == Run(Apply(s, PointerMove(pts[0])), MoveCalls(pts[1..]))
  {
    var cs := MoveCalls(pts);
    assert cs[0] == PointerMove(pts[0]) && cs[1..] == MoveCalls(pts[1..]);
  }

  /** The render log of a drag is its first preview followed by the rest. */
  lemma AppendRenders(log: seq<int>, value: int, x0: int, pts: seq<Point>)
    requires pts != []
    ensures log + DragRenders(value, x0, pts) == log + [Increase(value, pts[0].x - x0)] + DragRenders(value, x0, pts[1..])
  {
  }

  /**
   A released gesture commits the last preview (the committed value itself if
   nothing moved it), ends with no preview, no active marker and no document
   listener, and rendered exactly one preview per horizontal move.
   */
  lemma CommitGesture(s: Snapshot, p: Point, pts: seq<Point>, q: Point)
    requires Inv(s)
    ensures var r := Run(s, [PointerDown(p)] + MoveCalls(pts) + [PointerUp(q)]);
      && r.value == CommittedAfter(s, p, pts)
      && r.preview == None && r.listeners == {} && r.markers == s.markers - {ActiveMarker}
      && r.start == Some(p)
      && r.rendered == s.rendered + (if s.direction.Horizontal? then DragRenders(s.value, p.x, pts) else [])
  {
    var s1 := Apply(s, PointerDown(p));
    GestureSplit(s, p, pts, PointerUp(q));
    PressStep(s, p);
    Drag(s1, pts);
    var r1 := Run(s1, MoveCalls(pts));
    CommittedIsLastPreview(s, s1, p, pts);
    ReleaseStep(r1, q);
  }

  /**
   A gesture ended by the context menu leaves the committed value as it was
   before the press, ends with no preview, no active marker and no document
   listener, and last renders that unchanged value.
   */
  lemma CancelGesture(s: Snapshot, p: Point, pts: seq<Point>, q: Point)
    requires Inv(s)
    ensures var r := Run(s, [PointerDown(p)] + MoveCalls(pts) + [ContextMenu(q)]);
      && r.value == s.value
      && r.preview == None && r.listeners == {} && r.markers == s.markers - {ActiveMarker}
      && r.rendered == s.rendered + (if s.direction.Horizontal? then DragRenders(s.value, p.x, pts) else []) + [s.value]
  {
    var s1 := Apply(s, PointerDown(p));
    GestureSplit(s, p, pts, ContextMenu(q));
    PressStep(s, p);
    Drag(s1, pts);
    var r1 := Run(s1, MoveCalls(pts));
    MenuStep(r1, q);
  }

  /**
   Outside a gesture no document handler is registered, so document events,
   including any that arrive after a release or a cancel, change nothing.
   */
  lemma {:induction false} IdleIgnoresDocumentEvents(s: Snapshot, calls: seq<Call>)
    requires Inv(s) && s.preview.None?
    requires forall i :: 0 <= i < |calls| ==> IsDocumentEvent(calls[i])
    ensures Run(s, calls) == s
    decreases |calls|
  {
    if calls != [] {
      assert IsDocumentEvent(calls[0]);
      assert Apply(s, calls[0]) == s;
      IdleIgnoresDocumentEvents(s, calls[1..]);
    }
  }

  /** A move's preview depends only on where it is, not on the moves before it. */
  lemma MoveIgnoresHistory(s: Snapshot, p: Point, q: Point)
    requires Inv(s) && s.preview.Some?
    ensures Apply(Apply(s, PointerMove(p)), PointerMove(q)).preview == Apply(s, PointerMove(q)).preview
    ensures Apply(Apply(s, PointerMove(p)), PointerMove(q)).value == s.value
  {
  }

  /**
   Every state reachable from construction has the three document listeners
   registered exactly when a preview exists, and none otherwise.
   */
  lemma ListenersTrackPreview(value: int, classes: set<string>, direction: Option<Direction>, calls: seq<Call>)
    ensures var r := Run(Initial(value, classes, direction), calls);
      && (r.listeners == GestureListeners <==> r.preview.Some?)
      && (r.listeners == {} <==> r.preview.None?)
      && r.pressBound
  {
  }

  /**
   destroy removes only the two persistent markers: a gesture in progress keeps
   its preview and all three document listeners, and pointerdown stays bound.
   */
  lemma DestroyKeepsGesture(s: Snapshot)
    requires Inv(s)
    ensures var r := Apply(s, Destroy);
      && r.markers == s.markers - {BaseMarker, DirectionMarker(s.direction)}
      && r.value == s.value && r.start == s.start && r.preview == s.preview
      && r.listeners == s.listeners && r.pressBound && r.rendered == s.rendered
      && (s.preview.Some? ==> r.listeners == GestureListeners)
  {
  }

  /**
   Displacement is measured from the press point and truncated toward zero:
   from value v, press at x = 0, move to 25, 5 and -15, release. The previews
   are v + 2, v and v - 1 (not v - 2), and v - 1 is committed.
   */
  lemma PressPointScenario(v: int)
    ensures var r := Run(Initial(v, {}, None),
                         [PointerDown(Point(0, 0)), PointerMove(Point(25, 0)), PointerMove(Point(5, 0)),
                          PointerMove(Point(-15, 0)), PointerUp(Point(-15, 0))]);
      r.rendered == [v + 2, v, v - 1] && r.value == v - 1
      && r.markers == {"slide-tuning", "slide-tuning--horizontal"}
  {
    var s0 := Initial(v, {}, None);
    var pts := [Point(25, 0), Point(5, 0), Point(-15, 0)];
    ScenarioCalls(pts);
    ScenarioRenders(s0, v, pts);
    InitialMarkers(v);
    CommitGesture(s0, Point(0, 0), pts, Point(-15, 0));
  }

  /** The scenario's calls, written as press, moves and release. */
  lemma ScenarioCalls(pts: seq<Point>)
    requires pts == [Point(25, 0), Point(5, 0), Point(-15, 0)]
    ensures [PointerDown(Point(0, 0))] + MoveCalls(pts) + [PointerUp(Point(-15, 0))]
         == [PointerDown(Point(0, 0)), PointerMove(Point(25, 0)), PointerMove(Point(5, 0)),
             PointerMove(Point(-15, 0)), PointerUp(Point(-15, 0))]
  {
    assert MoveCalls(pts[2..]) == [PointerMove(Point(-15, 0))];
    assert MoveCalls(pts[1..]) == [PointerMove(Point(5, 0))] + MoveCalls(pts[2..]);
  }

  /** The scenario's previews, computed. */
  lemma ScenarioRenders(s0: Snapshot, v: int, pts: seq<Point>)
    requires s0 == Initial(v, {}, None)
    requires pts == [Point(25, 0), Point(5, 0), Point(-15, 0)]
    ensures s0.direction.Horizontal? && s0.value == v && s0.rendered == []
    ensures DragRenders(v, 0, pts) == [v + 2, v, v - 1]
    ensures CommittedAfter(s0, Point(0, 0), pts) == v - 1
  {
    assert Increase(v, 25) == v + 2 by { assert TruncDiv(25, 10) == 2; }
    assert Increase(v, 5) == v;
    assert Increase(v, -15) == v - 1 by { assert TruncDiv(-15, 10) == -1; }
    assert DragRenders(v, 0, pts[2..]) == [v - 1];
    assert DragRenders(v, 0, pts[1..]) == [v] + DragRenders(v, 0, pts[2..]);
  }

  /** With no initial classes, the element ends a gesture with the two persistent markers only. */
  lemma InitialMarkers(v: int)
    ensures Initial(v, {}, None).markers - {ActiveMarker} == {"slide-tuning", "slide-tuning--horizontal"}
  {
    assert DirectionMarker(Horizontal) == "slide-tuning--horizontal";
    assert ActiveMarker != BaseMarker && ActiveMarker != DirectionMarker(Horizontal);
  }
}
