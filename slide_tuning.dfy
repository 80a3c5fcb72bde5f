/**
 The SlideTuning controller: a press, drag and release state machine that edits
 one numeric value bound to an element.

 The element is abstracted as the set of its class-name tokens and a flag for
 its pointerdown registration; the document as the set of this controller's
 handlers registered on it; the renderer as the log of the values passed to it.
 A document event reaches a handler only while that handler is registered.
 */
module Tuning {
  import opened JsNumber

  datatype Option<T> = None | Some(value: T)

  /** The characters a DOM class-list token may not contain: tab, line feed, form feed, carriage return, space. */
  predicate IsAsciiWhitespace(c: char) {
    c == '\t' || c == '\n' || c == 12 as char || c == '\r' || c == ' '
  }

  predicate IsToken(s: string) {
    forall i :: 0 <= i < |s| ==> !IsAsciiWhitespace(s[i])
  }

  /**
   A direction name, other than the two the enumeration names, that can become
   a class-list token. With whitespace in it, classList.add in init throws and
   no controller comes into being.
   */
  type TokenName = s: string | IsToken(s) && s != "horizontal" && s != "vertical" witness ""

  datatype Direction = Horizontal | Vertical | Other(name: TokenName)

  datatype Point = Point(x: int, y: int)

  /** The controller's document-level handlers, named by the event type they are registered for. */
  datatype Listener = MoveListener | ContextMenuListener | UpListener

  /** Every way the outside world reaches the controller. */
  datatype Call =
    | PointerDown(at: Point)   // on the element
    | PointerMove(at: Point)   // on the document
    | PointerUp(at: Point)     // on the document
    | ContextMenu(at: Point)   // on the document
    | Destroy                  // the public destroy()

  const BaseMarker: string := "slide-tuning"
  const ActiveMarker: string := "slide-tuning--active"
  const GestureListeners: set<Listener> := {MoveListener, ContextMenuListener, UpListener}

  function DirectionName(d: Direction): string {
    match d
    case Horizontal => "horizontal"
    case Vertical => "vertical"
    case Other(name) => name
  }

  /** The class name for a direction; it is always a valid class-list token. */
  function DirectionMarker(d: Direction): (m: string)
    ensures IsToken(m) && m != BaseMarker
  {
    var prefix, name := "slide-tuning--", DirectionName(d);
    assert forall i :: 0 <= i < |prefix + name| ==>
      (prefix + name)[i] == if i < |prefix| then prefix[i] else name[i - |prefix|];
    prefix + name
  }

  /** Distinct directions mark the element with distinct class names. */
  lemma DirectionMarkerInjective(d: Direction, e: Direction)
    requires DirectionMarker(d) == DirectionMarker(e)
    ensures d == e
  {
    var prefix := "slide-tuning--";
    assert DirectionName(d) == DirectionMarker(d)[|prefix|..];
    assert DirectionName(e) == DirectionMarker(e)[|prefix|..];
  }

  /**
   The default `increase`: the committed value plus the horizontal displacement
   divided by 10, truncated toward zero and wrapped to 32 bits by `| 0`.
   */
  function Increase(value: int, relative: int): (r: int)
    ensures -10 < relative < 10 ==> r == value
    ensures Abs(relative) < 10 * TwoTo31 ==>
              (relative >= 0 ==> r >= value) && (relative <= 0 ==> r <= value) &&
              Abs(r - value) * 10 <= Abs(relative) < (Abs(r - value) + 1) * 10
  {
    value + ToInt32(TruncDiv(relative, 10))
  }

  /** Past 2^31 tenths of displacement the `| 0` wraps: the preview jumps to the far negative end. */
  lemma IncreaseWrapsAt32Bits(value: int)
    ensures Increase(value, 10 * TwoTo31) == value - TwoTo31
    ensures Increase(value, 10 * TwoTo31 - 1) == value + TwoTo31 - 1
  {
    assert TruncDiv(10 * TwoTo31, 10) == TwoTo31;
    assert TruncDiv(10 * TwoTo31 - 1, 10) == TwoTo31 - 1;
  }

  /** Everything the controller and its environment hold, as one value. */
  datatype Snapshot = Snapshot(
    value: int,                 // options.value, the committed value
    start: Option<Point>,       // the press point of the latest gesture
    preview: Option<int>,       // previewValue
    direction: Direction,       // options.direction
    markers: set<string>,       // the element's class list
    pressBound: bool,           // the element's pointerdown handler is registered
    listeners: set<Listener>,   // this controller's document handlers
    rendered: seq<int>)         // every value passed to the renderer, in order

  /**
   The controller's invariant: the pointerdown handler stays registered, and the
   three document handlers are registered, all of them, exactly while a preview
   exists, which is only after some press has set the start point.
   */
  predicate Inv(s: Snapshot) {
    && s.pressBound
    && (s.preview.Some? <==> s.listeners != {})
    && (s.listeners != {} ==> s.listeners == GestureListeners)
    && (s.preview.Some? ==> s.start.Some?)
  }

  /** The state right after construction (constructor and init). */
  function Initial(value: int, classes: set<string>, direction: Option<Direction>): (r: Snapshot)
    ensures Inv(r)
  {
    var d := if direction.Some? then direction.value else Horizontal;
    Snapshot(value, None, None, d, classes + {BaseMarker, DirectionMarker(d)}, true, {}, [])
  }

  /** The controller registers no document handler besides the three of a gesture. */
  lemma NoOtherListeners(ls: set<Listener>)
    ensures ls - GestureListeners == {} && ls - {MoveListener, ContextMenuListener} - {UpListener} == {}
  {
    forall l | l in ls ensures l in GestureListeners {
      match l
      case MoveListener =>
      case ContextMenuListener =>
      case UpListener =>
    }
  }

  /**
   onPointerDown: a gesture starts at the press point with the committed value
   as its preview, the element is marked active and all three document handlers
   are registered; the value, the render log and the rest stay.
   */
  function Pressed(s: Snapshot, at: Point): (r: Snapshot)
    ensures r.start == Some(at) && r.preview == Some(s.value)
    ensures r.markers == s.markers + {ActiveMarker} && r.listeners == s.listeners + GestureListeners
    ensures r.(start := s.start, preview := s.preview, markers := s.markers, listeners := s.listeners) == s
    ensures Inv(s) ==> Inv(r) && r.listeners == GestureListeners
  {
    s.(start := Some(at), preview := Some(s.value),
       markers := s.markers + {ActiveMarker},
       listeners := s.listeners + GestureListeners)
  }

  /**
   onDocumentPointerMove: horizontally, the preview moves away from the
   committed value by the whole tenths of the displacement from the press point
   and is rendered; any other direction leaves the state as it is.
   */
  function Moved(s: Snapshot, at: Point): (r: Snapshot)
    requires s.start.Some?
    ensures r.(preview := s.preview, rendered := s.rendered) == s
    ensures !s.direction.Horizontal? ==> r == s
    ensures s.direction.Horizontal? ==>
              r.preview.Some? && r.rendered == s.rendered + [r.preview.value] &&
              var dx, p := at.x - s.start.value.x, r.preview.value;
              (Abs(dx) < 10 * TwoTo31 ==>
                 (dx >= 0 ==> p >= s.value) && (dx <= 0 ==> p <= s.value) &&
                 Abs(p - s.value) * 10 <= Abs(dx) < (Abs(p - s.value) + 1) * 10)
    ensures Inv(s) && s.preview.Some? ==> Inv(r)
  {
    match s.direction
    case Horizontal =>
      var p := Increase(s.value, at.x - s.start.value.x);
      s.(preview := Some(p), rendered := s.rendered + [p])
    case _ => s
  }

  /**
   onPointerUp, after the once-registered pointerup handler has removed itself:
   the preview is committed, the active marker goes and no document handler of
   the gesture stays registered.
   */
  function Released(s: Snapshot): (r: Snapshot)
    requires s.preview.Some?
    ensures r.value == s.preview.value && r.preview == None
    ensures r.markers == s.markers - {ActiveMarker} && r.listeners == {}
    ensures r.(value := s.value, preview := s.preview, markers := s.markers, listeners := s.listeners) == s
    ensures Inv(s) ==> Inv(r)
  {
    NoOtherListeners(s.listeners);
    s.(markers := s.markers - {ActiveMarker},
       listeners := s.listeners - {MoveListener, ContextMenuListener} - {UpListener},
       value := s.preview.value, preview := None)
  }

  /** cancel: the committed value, unchanged, is rendered last and the preview is dropped. */
  function Cancelled(s: Snapshot): (r: Snapshot)
    ensures r.value == s.value && r.preview == None
    ensures |r.rendered| == |s.rendered| + 1 && r.rendered[..|s.rendered|] == s.rendered
    ensures r.rendered[|s.rendered|] == s.value
    ensures r.(rendered := s.rendered, preview := s.preview) == s
  {
    s.(rendered := s.rendered + [s.value], preview := None)
  }

  /**
   onDocumentContextMenu, which ends in cancel: the gesture ends with no active
   marker and no document handler, and the committed value is rendered again.
   */
  function MenuOpened(s: Snapshot): (r: Snapshot)
    ensures r.value == s.value && r.preview == None && r.rendered == s.rendered + [s.value]
    ensures r.markers == s.markers - {ActiveMarker} && r.listeners == {}
    ensures r.(markers := s.markers, listeners := s.listeners, preview := s.preview, rendered := s.rendered) == s
    ensures Inv(s) ==> Inv(r)
  {
    NoOtherListeners(s.listeners);
    Cancelled(s.(markers := s.markers - {ActiveMarker}, listeners := s.listeners - GestureListeners))
  }

  /**
   destroy: the two persistent markers go, every other class stays, and the
   gesture and all registrations are left as they are.
   */
  function Destroyed(s: Snapshot): (r: Snapshot)
    ensures BaseMarker !in r.markers && DirectionMarker(s.direction) !in r.markers
    ensures forall m :: m in s.markers && m != BaseMarker && m != DirectionMarker(s.direction) ==> m in r.markers
    ensures r.markers <= s.markers && r.(markers := s.markers) == s
    ensures Inv(s) ==> Inv(r)
  {
    s.(markers := s.markers - {BaseMarker, DirectionMarker(s.direction)})
  }

  /** One call, delivered to its handler only when that handler is registered. */
  function Apply(s: Snapshot, c: Call): (r: Snapshot)
    requires Inv(s)
    ensures Inv(r)
    ensures r.direction == s.direction
    ensures r.value != s.value ==> c.PointerUp? && s.preview == Some(r.value)
    ensures r.start != s.start ==> c.PointerDown? && r.start == Some(c.at)
  {
    match c
    case PointerDown(at) => if s.pressBound then Pressed(s, at) else s
    case PointerMove(at) => if MoveListener in s.listeners then Moved(s, at) else s
    case PointerUp(_) => if UpListener in s.listeners then Released(s) else s
    case ContextMenu(_) => if ContextMenuListener in s.listeners then MenuOpened(s) else s
    case Destroy => Destroyed(s)
  }

  /** A sequence of calls, in order. */
  function Run(s: Snapshot, calls: seq<Call>): (r: Snapshot)
    requires Inv(s)
    ensures Inv(r)
    ensures r.direction == s.direction
    decreases |calls|
  {
    if calls == [] then s else Run(Apply(s, calls[0]), calls[1..])
  }

  /** The controller object; its fields are those of Snapshot, updated in place by the handlers. */
  class SlideTuning {
    var value: int
    var start: Option<Point>
    var previewValue: Option<int>
    const direction: Direction
    var classList: set<string>
    var pressListening: bool
    var documentListeners: set<Listener>
    var rendered: seq<int>

    function State(): Snapshot
      reads this
    {
      Snapshot(value, start, previewValue, direction, classList, pressListening, documentListeners, rendered)
    }

    ghost predicate Valid()
      reads this
    {
      Inv(State())
    }

    /**
     Construction: options are merged over the defaults (direction horizontal),
     then init marks the element and binds pointerdown. `classes` is the class
     list the element already had.
     */
    constructor (value: int, classes: set<string>, direction: Option<Direction>)
      ensures Valid()
      ensures this.direction == (if direction.None? then Horizontal else direction.value)
      ensures classList == classes + {BaseMarker, DirectionMarker(this.direction)}
      ensures pressListening && documentListeners == {}
      ensures this.value == value && start == None && previewValue == None && rendered == []
      ensures State() == Initial(value, classes, direction)
    {
      this.value := value;
      start := None;
      previewValue := None;
      this.direction := if direction.None? then Horizontal else direction.value;
      classList := classes;
      pressListening := false;
      documentListeners := {};
      rendered := [];
      new;
      Init();
    }

    method Init()
      modifies this
      ensures classList == old(classList) + {BaseMarker, DirectionMarker(direction)}
      ensures pressListening
      ensures value == old(value) && start == old(start) && previewValue == old(previewValue)
      ensures documentListeners == old(documentListeners) && rendered == old(rendered)
    {
      classList := classList + {BaseMarker, DirectionMarker(direction)};
      pressListening := true;
    }

    /** Removes the two persistent markers and nothing else: the gesture and every registration stay. */
    method Destroy()
      requires Valid()
      modifies this
      ensures Valid()
      ensures classList == old(classList) - {BaseMarker, DirectionMarker(direction)}
      ensures pressListening == old(pressListening) && documentListeners == old(documentListeners)
      ensures value == old(value) && start == old(start) && previewValue == old(previewValue)
      ensures rendered == old(rendered)
    {
      classList := classList - {BaseMarker, DirectionMarker(direction)};
    }

    method OnPointerUp(at: Point)
      requires Valid() && UpListener in documentListeners
      modifies this
      ensures Valid()
      ensures value == old(previewValue).value && previewValue == None
      ensures classList == old(classList) - {ActiveMarker}
      ensures documentListeners == {}
      ensures start == old(start) && pressListening == old(pressListening) && rendered == old(rendered)
    {
      documentListeners := documentListeners - {UpListener};  // registered with once
      classList := classList - {ActiveMarker};
      documentListeners := documentListeners - {MoveListener};
      documentListeners := documentListeners - {ContextMenuListener};
      value := previewValue.value;
      previewValue := None;
    }

    method OnPointerDown(at: Point)
      requires Valid()
      modifies this
      ensures Valid()
      ensures start == Some(at) && previewValue == Some(value) && value == old(value)
      ensures classList == old(classList) + {ActiveMarker}
      ensures documentListeners == GestureListeners
      ensures pressListening == old(pressListening) && rendered == old(rendered)
    {
      start := Some(at);
      previewValue := Some(value);
      classList := classList + {ActiveMarker};
      documentListeners := documentListeners + {MoveListener};
      documentListeners := documentListeners + {ContextMenuListener};
      documentListeners := documentListeners + {UpListener};
    }

    method OnDocumentPointerMove(at: Point)
      requires Valid() && MoveListener in documentListeners
      modifies this
      ensures Valid() && start.Some?
      ensures direction.Horizontal? ==>
                var p := Increase(value, at.x - start.value.x);
                previewValue == Some(p) && rendered == old(rendered) + [p]
      ensures !direction.Horizontal? ==> previewValue == old(previewValue) && rendered == old(rendered)
      ensures value == old(value) && start == old(start) && classList == old(classList)
      ensures documentListeners == old(documentListeners) && pressListening == old(pressListening)
    {
      match direction
      case Horizontal =>
        previewValue := Some(Increase(value, at.x - start.value.x));
        rendered := rendered + [previewValue.value];
      case Vertical =>
      case Other(_) =>
    }

    method OnDocumentContextMenu(at: Point)
      requires Valid() && ContextMenuListener in documentListeners
      modifies this
      ensures Valid()
      ensures classList == old(classList) - {ActiveMarker}
      ensures documentListeners == {}
      ensures value == old(value) && rendered == old(rendered) + [value] && previewValue == None
      ensures start == old(start) && pressListening == old(pressListening)
    {
      documentListeners := documentListeners - {ContextMenuListener};  // registered with once
      classList := classList - {ActiveMarker};
      documentListeners := documentListeners - {MoveListener};
      documentListeners := documentListeners - {ContextMenuListener};
      documentListeners := documentListeners - {UpListener};
      Cancel();
    }

    /** Re-renders the committed value and drops the preview. */
    method Cancel()
      modifies this
      ensures rendered == old(rendered) + [value] && previewValue == None
      ensures value == old(value) && start == old(start) && classList == old(classList)
      ensures documentListeners == old(documentListeners) && pressListening == old(pressListening)
    {
      rendered := rendered + [value];
      previewValue := None;
    }

    /** The environment delivering one call: a document event only reaches a registered handler. */
    method Dispatch(c: Call)
      requires Valid()
      modifies this
      ensures Valid()
      ensures State() == Apply(old(State()), c)
    {
      match c
      case PointerDown(at) =>
        if pressListening { OnPointerDown(at); }
      case PointerMove(at) =>
        if MoveListener in documentListeners { OnDocumentPointerMove(at); }
      case PointerUp(at) =>
        if UpListener in documentListeners { OnPointerUp(at); }
      case ContextMenu(at) =>
        if ContextMenuListener in documentListeners { OnDocumentContextMenu(at); }
      case Destroy =>
        Destroy();
    }
  }
}
