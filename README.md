# slide-tuning, modelled in Dafny

`SlideTuning` binds a numeric value to an HTML element and lets the user change
it by dragging. A press on the element starts a gesture. Moves on the document
compute a preview from the horizontal displacement since the press and hand it
to a renderer. Release commits the preview. A context menu cancels: the
committed value is re-rendered and stays unchanged.

The model abstracts the DOM:

- the element's class list is a `set<string>`;
- its pointerdown registration is a flag;
- the document listeners this controller registers are a set of `Listener`s
  (`pointermove`, `contextmenu`, `pointerup`);
- the renderer is a log of the values passed to it;
- events are calls carrying integer `clientX`/`clientY`.

A document event reaches a handler only while that handler is registered.
Listeners registered with `once` remove themselves when they fire. Adding a
listener that is already present changes nothing.

Files:

- `js_number.dfy` (module `JsNumber`): JavaScript's `relative / 10 | 0` over
  integers. This is division truncated toward zero, then ToInt32, which wraps
  modulo 2^32 into the signed 32-bit range.
- `slide_tuning.dfy` (module `Tuning`):
  - the default `increase`;
  - the state as a `Snapshot` value, with one pure function per handler;
  - `Apply`, which delivers one call, and `Run`, which delivers a sequence of calls;
  - the class `SlideTuning`, whose handler methods update its fields in place.
    `Dispatch` proves that each update is `Apply` of the old state.
- `gestures.dfy` (module `Gestures`): lemmas about whole gestures (press,
  moves, then release or context menu).

The invariant `Inv` covers every reachable state. It says that pointerdown
stays bound, and that the three document listeners are registered, all
together, exactly when a preview exists.

## Behaviour worth noting

- A press with any mouse button starts a gesture. `onPointerDown` does not look
  at the button (src/slide-tuning.ts:66-73).
- Displacement is measured from the press point, not from the previous move.
  The default `increase` adds it to the committed value, not to the preview
  (src/slide-tuning.ts:40, 79).
- Construction renders nothing. The renderer is called only on a horizontal
  move and on cancel (src/slide-tuning.ts:29-56, 80, 104).
- Release copies the preview into the value as it is, without rounding
  (src/slide-tuning.ts:62).
- `destroy` removes the two class names and nothing else. A running gesture
  keeps its document listeners, and pointerdown stays bound
  (src/slide-tuning.ts:49-51).
- A direction named `active` shares its class name with the active marker, so
  a release or a context menu also removes the persistent direction class
  (src/slide-tuning.ts:54, 59, 96). The model keeps the class list as a set and
  reproduces this.

## Model

| member | source | states |
|---|---|---|
| `JsNumber.TruncDiv` | src/slide-tuning.ts:40 | The quotient has the sign of the dividend, and its magnitude is the largest number of whole divisors that fits in the dividend's magnitude. So `relative / 10` rounds toward zero: -9..9 give 0 and -15 gives -1. |
| `JsNumber.TruncDivUnique` | src/slide-tuning.ts:40 | The sign-and-bounds characterisation determines the quotient: any number meeting it equals `TruncDiv`. |
| `JsNumber.ToInt32` | src/slide-tuning.ts:40 | the bitwise or with 0 yields a signed 32-bit integer and leaves every value already in that range unchanged. |
| `JsNumber.ToInt32Wraps` | src/slide-tuning.ts:40 | the bitwise or with 0 changes its operand by a multiple of 2^32: it wraps and does not saturate. |
| `Tuning.Increase` | src/slide-tuning.ts:39-41 | The default `increase`. A displacement of -9..9 leaves the committed value as it is. Below 2^31 tenths, the result moves from the committed value in the direction of the displacement, by exactly the number of whole tenths the displacement holds. |
| `Tuning.IncreaseWrapsAt32Bits` | src/slide-tuning.ts:40 | At exactly 2^31 tenths of displacement, the 32-bit wrap of the bitwise or with 0 turns the increment into -2^31. One pixel less still gives +2^31-1. |
| `Tuning.Initial` | src/slide-tuning.ts:29-56 | The state after construction satisfies the controller invariant. |
| `Tuning.DirectionMarker` | src/slide-tuning.ts:54 | The direction's class name holds no ASCII whitespace, so `classList.add` accepts it. It differs from `slide-tuning`. |
| `Tuning.DirectionMarkerInjective` | src/slide-tuning.ts:2-5 | Two directions that give the same class name are the same direction: an `Other` name is never `horizontal` or `vertical`, which are the enumeration's own values. |
| `Tuning.Pressed` | src/slide-tuning.ts:66-73 | The start becomes the press point and the preview the committed value. The class list gains exactly the active marker and the listener set exactly the three document handlers. Nothing else changes, and from an invariant state the listener set is exactly the three. |
| `Tuning.Moved` | src/slide-tuning.ts:75-91 | A horizontal move renders its new preview. Below 2^31 tenths of displacement from the press point, the preview moves from the committed value in the direction of the displacement, by exactly the whole tenths it holds. Other directions change nothing. Only the preview and the render log change, and the invariant holds during a gesture. |
| `Tuning.Released` | src/slide-tuning.ts:58-64 | The preview becomes the committed value and is cleared. The class list loses exactly the active marker, and every document handler is gone. Nothing else changes, and the invariant is kept. |
| `Tuning.Cancelled` | src/slide-tuning.ts:103-106 | The render log gains exactly one entry at its end, the unchanged committed value, and the preview is cleared. Nothing else changes. |
| `Tuning.MenuOpened` | src/slide-tuning.ts:93-101 | The committed value stays and is rendered again. The preview is cleared, the class list loses exactly the active marker, and every document handler is gone. Nothing else changes, and the invariant is kept. |
| `Tuning.Destroyed` | src/slide-tuning.ts:49-51 | Both persistent markers are gone, every other class stays, and no other part of the state changes. The invariant is kept. |
| `Tuning.Apply` | src/slide-tuning.ts:55-106 | Delivering any call preserves the invariant. Only a delivered pointerup changes the committed value, and then it becomes the preview. Only a press moves the start point, and it moves to the press point. |
| `Tuning.Run` | src/slide-tuning.ts:55-106 | Every sequence of calls preserves the invariant and the direction. |
| `Tuning.SlideTuning.constructor` | src/slide-tuning.ts:29-56 | The direction defaults to horizontal. The element gains `slide-tuning` and `slide-tuning--<direction>`, and pointerdown is bound. No session exists, nothing is rendered, and no document listener is registered. |
| `Tuning.SlideTuning.Init` | src/slide-tuning.ts:53-56 | Adds the two persistent markers and binds pointerdown. Nothing else changes. |
| `Tuning.SlideTuning.Destroy` | src/slide-tuning.ts:49-51 | Removes only the two persistent markers. The session fields, the document listeners and the pointerdown binding are unchanged. |
| `Tuning.SlideTuning.OnPointerUp` | src/slide-tuning.ts:58-64 | Commits the preview into the value and clears the preview. Removes the active marker. Leaves no document listener: pointermove and contextmenu are removed explicitly, and pointerup removes itself. The invariant holds afterwards. |
| `Tuning.SlideTuning.OnPointerDown` | src/slide-tuning.ts:66-73 | `start` becomes the press point and the preview becomes the committed value, which itself is unchanged. Adds the active marker and registers all three document listeners. The invariant holds afterwards. |
| `Tuning.SlideTuning.OnDocumentPointerMove` | src/slide-tuning.ts:75-91 | A horizontal move sets the preview to `Increase(value, x - start.x)` and renders it. Any other direction changes nothing. The value, start, markers and listeners are unchanged. |
| `Tuning.SlideTuning.OnDocumentContextMenu` | src/slide-tuning.ts:93-101 | Removes the active marker and all three listeners. Re-renders the unchanged committed value and clears the preview. The invariant holds afterwards. |
| `Tuning.SlideTuning.Cancel` | src/slide-tuning.ts:103-106 | Appends the committed value to the render log and clears the preview. |
| `Tuning.SlideTuning.Dispatch` | src/slide-tuning.ts:55-72 | An event reaches a handler only while that handler is registered. The resulting state is `Apply` of the old state, and the invariant is kept. |
| `Gestures.PressStep` | src/slide-tuning.ts:66-73 | A press, in any state, sets the start to the press point and the preview to the committed value, which stays. It adds the active marker and registers all three document listeners. The render log is untouched. |
| `Gestures.ReleaseStep` | src/slide-tuning.ts:58-64 | A release during a gesture commits the preview and clears it. It removes the active marker and every document listener. The start and the render log stay. |
| `Gestures.MenuStep` | src/slide-tuning.ts:93-106 | A context menu during a gesture keeps the committed value and appends it to the render log. It clears the preview and removes the active marker and every document listener. |
| `Gestures.MoveStep` | src/slide-tuning.ts:75-91 | In a gesture, a horizontal move sets the preview to `Increase(value, x - start.x)` and appends it to the render log. Other directions change neither. The value, start, markers and listeners stay. |
| `Gestures.Drag` | src/slide-tuning.ts:75-91 | Any number of moves keeps the value, start, markers and listeners. The preview is that of the last move, measured from the press point. The render log gains one preview per horizontal move, in order. |
| `Gestures.CommitGesture` | src/slide-tuning.ts:58-73 | Press, any moves, release: the committed value becomes the last move's preview, or stays as it was if nothing moved it. The gesture ends with no preview, no active marker and no document listener. |
| `Gestures.CancelGesture` | src/slide-tuning.ts:93-106 | Press, any moves, context menu: the committed value equals its value before the press, and the last rendered value is that value. The gesture ends with no preview, no active marker and no document listener. |
| `Gestures.IdleIgnoresDocumentEvents` | src/slide-tuning.ts:58-64 | Outside a gesture, any sequence of document events leaves the whole state unchanged. This includes events that arrive after a release or a cancel. |
| `Gestures.MoveIgnoresHistory` | src/slide-tuning.ts:79 | A move's preview does not depend on the moves before it, and moves never change the committed value. |
| `Gestures.ListenersTrackPreview` | src/slide-tuning.ts:66-106 | In every state reachable from construction, the listener set is {pointermove, contextmenu, pointerup} exactly when a preview exists and is empty otherwise. Pointerdown stays bound. |
| `Gestures.DestroyKeepsGesture` | src/slide-tuning.ts:49-51 | `destroy` removes only the two persistent markers. A gesture in progress keeps its preview and all three document listeners. |
| `Gestures.PressPointScenario` | src/slide-tuning.ts:39-41 | From value v: press at x=0, move to 25, 5 and -15, then release. The renderer sees v+2, v and v-1, and v-1 is committed. The element keeps only the two persistent markers. |

## Left out

- The string formatting of the default renderer (`toFixed(2)` written to `innerHTML`) is floating-point presentation. The model records the number passed to the renderer instead.
- Caller-supplied `renderer` and `increase` callbacks are foreign code. Only the defaults are modelled.
- Values are integers, and JavaScript numbers are doubles. Rounding above 2^53 and non-integral starting values or coordinates are not modelled.
- The vertical branch only writes `clientY` to the console. The console output is not modelled; the branch changes no state, as modelled.
- `preventDefault` and `stopPropagation` in the context-menu handler act on the browser's event dispatch, which is not modelled.
- The `bind` calls in the constructor are not modelled as such. The listener set stands for the stable handler identities they provide.
- Listeners that other code registers on the same document are not modelled. Nor is the order in which the document calls its listeners.
- A direction whose name holds ASCII whitespace makes `classList.add` in `init` throw, so construction fails. The model's `TokenName` type excludes such names; the failing construction is not modelled. `TokenName` also excludes `horizontal` and `vertical`, since those strings are the enumeration values and take their own branches.
- An explicit `direction: undefined` in the options overrides the default through `Object.assign`. It is an `Other` direction here, with the marker `slide-tuning--undefined`.
- The step table, sensitivity, `fractionDigits`, Escape-key cancellation, `change`/`changed`/`cancel` notifications and `reset` exist only as declarations in `dist/slide-tuning.d.ts`. Their bodies are not part of this model.
