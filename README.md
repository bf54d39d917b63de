# WinApp.ExtControl state logic, modelled in Dafny

This project models the state logic of three parts of the WinApp.ExtControl
WPF control library, with the framework calls taken out:

- **SimplePagination** (`pagination.dfy`, module `Pagination`): the control's
  `Count`, `CountPerPage`, `Current` and read-only `PageCount` dependency
  properties. The class `SimplePagination` holds them as 32-bit integers
  (`int32`). Each setter coerces the assigned value (Count ≥ 0,
  CountPerPage ≥ 1, Current ≥ 1). As WPF does, the change callback runs only
  when the coerced value differs from the old one. The cascade is written out:
  - a Count change recomputes PageCount by ceiling division;
  - a CountPerPage change recomputes PageCount and then resets Current to 1;
  - a PageCount change under the `"MainWindow"` tag moves Current to
    `max(PageCount, 1)`.

  The Prev/Next commands and their enable conditions are methods of the class.
  `Current++` wraps at `int.MaxValue`, as unchecked C# arithmetic does, and the
  coercion then lands on page 1. That cannot happen while Next is enabled.
  A fresh control has `Count = 0` but `PageCount = 1`, the metadata default.
  The two agree only after `Init` (called from `OnApplyTemplate`) or after a
  change of Count or CountPerPage.
- **The Message façade** (`message.dfy`, module `Messages`): one `Message`
  object stands for the static class's four static fields:
  - the optional desktop window `_messageExt`;
  - the optional in-window adorner `_messageAdorner`;
  - the global position, initially `Right`;
  - the last window pushed to, compared by reference identity.

  The two views are classes holding a queue of messages and a position; the
  desktop window also has a visibility flag. The desktop window's `Closed`
  event is the method `DesktopClosed`. The methods state:
  - lazy creation and reuse of each view;
  - the reset of the adorner on a window switch;
  - the position sync;
  - the failure when no adorner layer exists;
  - that the desktop path and the window path never touch each other's state.
- **ControlsHelper** (`controls_helper.dfy`, module `ControlsHelper`):
  - `GetDefaultWindow` over the application's window list.
  - `FindVisualChild` as a recursive search over a visual tree whose nodes
    carry a type name. It is proved equal to "the first match in the
    pre-order of proper descendants", which is defined separately.
  - The compute-once cache of `DesignerHelper.IsInDesignMode`.

Windows are values `Window(id, isActive, layer)`:
- `id` is the reference identity;
- `isActive` is `IsActive`;
- `layer` is the adorner layer `GetAdornerLayer` finds for that window, if any.

The application (`Application.Current`) and the framework's design-mode
metadata are parameters of the operations that read them.

Where a comment and the code disagree, the model follows the code:
- the comment at `Controls/Pagination/SimplePagination.cs:82` says Current
  moves only when the page count decreases, but the code moves it to the new
  page count in both directions;
- the position of an existing view is re-synced on every push, so a position
  change does reach views that are already shown;
- `_messageAdorner` is one field shared by every window
  (`Controls/Message/Message.cs:17`), so only one adorner is referenced at a time;
- a window switch only drops the reference to the adorner
  (`Controls/Message/Message.cs:56`); the comment at line 55 says the previous
  window's messages are cleared, but the adorner stays on its layer with its
  messages, and the model states that it is left unchanged;
- a push without a window does not update the last window;
- a push to `lastWindow` reuses the adorner whatever layer it is on
  (`Controls/Message/Message.cs:73-78`), although the comment at line 75 says
  it is recreated when its parent is not the current window (see Findings).

The exception text `"AdornerLayer is not empty, it is recommended to use
PushDesktop"` is kept verbatim, although the condition is that the layer is
null.

## Model

| member | source | states |
|---|---|---|
| Pagination.PagesFor | Controls/Pagination/SimplePagination.cs:112 | `(int)Math.Ceiling(count * 1.0 / perPage)` is the least r with r·perPage ≥ count; it lies in 0..count, so the cast is exact, and Count = 0 gives 0 pages |
| Pagination.CoerceAtLeast | Controls/Pagination/SimplePagination.cs:115-119 | the `Math.Max(value, floor)` coercion keeps a value that reaches the floor and replaces any other by the floor; the setters use floor 0 for Count and 1 for CountPerPage and Current, with no upper bound |
| Pagination.Increment | Controls/Pagination/SimplePagination.cs:47 | `Current++` adds one below `int.MaxValue` and wraps to `int.MinValue` at it |
| Pagination.SimplePagination.constructor | Controls/Pagination/SimplePagination.cs:63-155 | a fresh control has Count 0, CountPerPage 50, Current 1 and PageCount 1, which is not the ceiling of 0/50 |
| Pagination.SimplePagination.SetCurrent | Controls/Pagination/SimplePagination.cs:153-175 | assigning Current (also the jump-page box) leaves `max(value, 1)` (lines 162-166), possibly above PageCount, and keeps Count ≥ 0, CountPerPage ≥ 1, Current ≥ 1 |
| Pagination.SimplePagination.OnPageCountChanged | Controls/Pagination/SimplePagination.cs:72-95 | under tag "MainWindow" Current ends at max(new PageCount, 1) whether the count went up or down; under any other tag Current is unchanged |
| Pagination.SimplePagination.SetPageCount | Controls/Pagination/SimplePagination.cs:62-70 | writing PageCount runs the callback only when the value changes; Current moves only then, and only under "MainWindow" |
| Pagination.SimplePagination.SetCount | Controls/Pagination/SimplePagination.cs:98-119 | Count becomes the coerced value; if it changed, PageCount is the ceiling of Count/CountPerPage and Current follows the PageCount callback; if not, nothing else changes |
| Pagination.SimplePagination.SetCountPerPage | Controls/Pagination/SimplePagination.cs:122-149 | CountPerPage becomes `max(value, 1)` (lines 132-136); if it changed, PageCount is recomputed and Current is 1 even under "MainWindow"; if not, nothing else changes |
| Pagination.SimplePagination.Init | Controls/Pagination/SimplePagination.cs:226-230 | afterwards PageCount is the ceiling of Count/CountPerPage, with Current following the PageCount callback |
| Pagination.SimplePagination.CanPrev | Controls/Pagination/SimplePagination.cs:38-42 | Prev is enabled iff Current > 1; when disabled Current is exactly 1 |
| Pagination.SimplePagination.CanNext | Controls/Pagination/SimplePagination.cs:50-54 | Next is enabled iff Current < PageCount, hence never with 0 or 1 pages |
| Pagination.SimplePagination.OnPrevCommand | Controls/Pagination/SimplePagination.cs:32-36 | when enabled, Prev moves back exactly one page; on page 1 Current stays 1, never below |
| Pagination.SimplePagination.OnNextCommand | Controls/Pagination/SimplePagination.cs:44-48 | Next moves forward exactly one page below `int.MaxValue` and stays within PageCount whenever it was enabled; at `int.MaxValue` it lands on page 1 |
| ControlsHelper.FirstActiveIndex | Core/Helpers/ControlsHelper.cs:87 | `FirstOrDefault(o => o.IsActive)` finds the first active window, and finds none iff no window is active |
| ControlsHelper.GetDefaultWindow | Core/Helpers/ControlsHelper.cs:82-91 | none without an application or windows; else the first active window; else the first window |
| ControlsHelper.FirstMatch | Core/Helpers/ControlsHelper.cs:100-113 | reference search: the first element of a sequence of the requested type, none iff no element has it |
| ControlsHelper.FindVisualChild | Core/Helpers/ControlsHelper.cs:100-113 | a result has the requested type and is a proper descendant of parent; there is no result iff no proper descendant has the type |
| ControlsHelper.FindInChildren | Core/Helpers/ControlsHelper.cs:103-111 | the loop from child i on finds only matches below children i.. and misses none of them |
| ControlsHelper.FindVisualChildIsFirstInPreorder | Core/Helpers/ControlsHelper.cs:100-113 | the result is the first match in pre-order: a child before its own subtree, earlier siblings' subtrees before later ones |
| ControlsHelper.FindInChildrenIsFirstInPreorder | Core/Helpers/ControlsHelper.cs:103-111 | the loop from child i on returns the first match in the pre-order of children i.. and their subtrees |
| ControlsHelper.ParentNeverReturned | Core/Helpers/ControlsHelper.cs:102-111 | the parent itself is never the result, even when it has the requested type |
| ControlsHelper.DesignerHelper.constructor | Core/Helpers/ControlsHelper.cs:152 | the cache starts empty and nothing has been computed |
| ControlsHelper.DesignerHelper.IsInDesignMode | Core/Helpers/ControlsHelper.cs:152-165 | the metadata is consulted at most once; the first read returns and caches it, every later read returns the cached value |
| Messages.IsNullOrWhiteSpace | Controls/Message/Message.cs:89 | `string.IsNullOrWhiteSpace` holds iff every character is Unicode white space (the empty string included) |
| Messages.Message.constructor | Controls/Message/Message.cs:16-18 | no desktop window, no adorner, no last window, position `Right` |
| Messages.Message.PushDesktop | Controls/Message/Message.cs:21-43 | afterwards the desktop window exists and is visible, sits at the global position, and ends with the message; it is new iff there was none, else the same window with the message appended; `type` defaults to Information and `center` to false; adorner, last window and position untouched |
| Messages.Message.DesktopClosed | Controls/Message/Message.cs:27 | the Closed event drops the desktop window, so the next PushDesktop creates a fresh one |
| Messages.Message.Push | Controls/Message/Message.cs:49-60 | the window becomes the last window; a repeat push with an adorner reuses it (position synced, message appended); a switched window or missing adorner creates a fresh one on the window's layer, or fails with no adorner when it has no layer; a dropped adorner keeps its queue and position; `type` defaults to Information and `center` to false; the desktop window is untouched |
| Messages.Message.PushDefault | Controls/Message/Message.cs:63-66 | reuses any existing adorner whichever window it is on; with none, creates one on the default window's layer or fails; last window and desktop window untouched |
| Messages.Message.CreateMessageAdorner | Controls/Message/Message.cs:69-97 | reuse path: position synced and message appended even when blank; create path: new adorner on the owner's (or default window's) layer at the global position, holding the message only if it is not blank; no layer: failure and still no adorner |
| Messages.Message.SetPosition | Controls/Message/Message.cs:100-104 | the global position becomes p, `Top` when no argument is given, although the initial position is `Right`; when it already is p nothing changes |
| Messages.Message.Clear | Controls/Message/Message.cs:107-110 | empties the adorner's queue and keeps the adorner; no-op without one; the desktop window is untouched |
| Messages.Message.ClearDesktop | Controls/Message/Message.cs:113-116 | empties the desktop window's queue and keeps the window and its visibility; no-op without one; the adorner is untouched |
| Messages.Message.PushToOwnWindow | Controls/Message/Message.cs:73-79 | corrected window push: an adorner on another window's layer is recreated, so a successful push always lands on the named window's layer; a dropped adorner keeps its queue and position |
| Messages.StrayPushScenario | Controls/Message/Message.cs:49-91 | as written: a push to window 1 (layer 10) lands on window 2's layer 20 after the sequence in Findings |
| Messages.OwnWindowScenario | Controls/Message/Message.cs:73-79 | with the corrected push, the same sequence puts the message on window 1's layer 10 |

## Findings

| source | as written | input that shows it | evidently intended | confidence | as-written member | corrected member |
|---|---|---|---|---|---|---|
| Controls/Message/Message.cs:73-79 | the reuse path compares only the position, under a comment saying the adorner is recreated when its parent is not the current window; `Push(window, …)` reuses any adorner whenever the window equals `lastWindow` | `Push(w1, "a")` while w1 has no adorner layer fails but records w1; `Push("b")` with w2 active creates the adorner on w2's layer; `Push(w1, "c")` once w1 has a layer appends "c" to w2's adorner | a window push whose adorner is on another layer recreates it on the named window | medium, not executed | Messages.StrayPushScenario | Messages.Message.PushToOwnWindow |

## Left out

- WindowShake: window animation and WAV playback, which are timing and I/O.
- CreateResizedImage: bitmap rendering with floating-point geometry.
- GetXmlReader: a XAML serialise-and-parse round trip through framework libraries.
- GetPadding: reflection over the element's type.
- GetAdornerLayer: its dispatch on framework types is not modelled; each window carries the layer it would return, and a missing owner has none.
- Controls/Panel/SmallPanel.cs, Core/Utilities/AdornerContainer.cs and Controls/Message/MessageListBox.cs: framework layout and container plumbing with no state logic of their own.
- MessageExt and MessageAdorner internals: rendering, animation and any auto-dismiss timers are not part of this model. Each view is only its queue, its position and (desktop) its visibility. The views' built-in default position is not known, and the model records it as `None`. The `IsPosition = false` flag that PushDesktop sets on a position change is left out, because its meaning is internal to MessageExt.
- Messages.Message.Push: a null window argument is not modelled. The parameter is declared non-nullable.
- Messages.Message.CreateMessageAdorner: a null message is not modelled, so `message ?? ""` is the message itself. All callers pass non-nullable strings.
- Routed-command registration, the static constructor and the default style key are framework plumbing.
- OnApplyTemplate only calls Init between two empty methods, so it is modelled as Init. ListBox_PreviewMouseMove only marks the event handled.
- The CountPerPage ComboBox handler is a call of the CountPerPage setter (SetCountPerPage).
- The jump-page handler truncates a double to int; the model takes the integer it assigns (SetCurrent).
- `Math.Ceiling` on doubles is modelled as integer ceiling division. This is exact for every 32-bit Count and CountPerPage.
- Concurrency: everything runs on the UI thread, and the model is sequential.
