/**
 * The Message façade: the process-wide notification state (the desktop
 * message window, the in-window message adorner, the global position and
 * the last window pushed to) and the operations that create, reuse, reset
 * and clear the two views.
 *
 * The C# class is static; here one `Message` object stands for its static
 * fields. The views' rendering, animation and timers are not modelled: each
 * view is its queue of messages, its position and (desktop only) whether it
 * is shown.
 */
module Messages {
  import opened Wrappers
  import opened ControlsHelper

  datatype Position = Left | Top | Right | Bottom

  /** The initial value of `_position`. */
  const InitialPosition: Position := Right
  /** The default argument of SetPosition, which differs from the initial position. */
  const SetPositionDefault: Position := Top

  /** MessageBoxImage; Hand/Stop, Exclamation and Asterisk are aliases of Error, Warning and Information. */
  datatype MessageBoxImage = NoIcon | Error | Question | Warning | Information

  /** The default arguments `type` and `center` of PushDesktop and both Push overloads. */
  const DefaultKind: MessageBoxImage := Information
  const DefaultCenter: bool := false

  /** One pushed message: its text, icon type and whether it is centred. */
  datatype Entry = Entry(text: string, kind: MessageBoxImage, center: bool)

  /** The exception CreateMessageAdorner throws when no adorner layer is found. */
  const NoAdornerLayerMessage: string := "AdornerLayer is not empty, it is recommended to use PushDesktop"

  /** Success of a push, or the message of the exception it throws. */
  datatype Outcome = Pass | Fail(message: string)

  /** char.IsWhiteSpace: the characters of Unicode's White_Space property. */
  predicate IsWhiteSpace(c: char)
  {
    || ('\U{0009}' <= c <= '\U{000D}') || c == '\U{0020}' || c == '\U{0085}' || c == '\U{00A0}'
    || c == '\U{1680}' || ('\U{2000}' <= c <= '\U{200A}') || c == '\U{2028}' || c == '\U{2029}'
    || c == '\U{202F}' || c == '\U{205F}' || c == '\U{3000}'
  }

  /** string.IsNullOrWhiteSpace on a non-null string: true exactly when no character is visible. */
  function IsNullOrWhiteSpace(s: string): (r: bool)
    ensures r <==> forall i :: 0 <= i < |s| ==> IsWhiteSpace(s[i])
  {
    if s == [] then true
    else IsWhiteSpace(s[0]) && IsNullOrWhiteSpace(s[1..])
  }

  /**
   * The desktop message window (MessageExt). `position` is None while the
   * window still has its own built-in default, which is not part of this model.
   */
  class MessageExt {
    var queue: seq<Entry>
    var position: Option<Position>
    var visible: bool

    constructor ()
      ensures queue == [] && position.None? && !visible
    {
      queue, position, visible := [], None, false;
    }

    method Show()
      modifies this`visible
      ensures visible
    {
      visible := true;
    }

    method SetPosition(p: Position)
      modifies this`position
      ensures position == Some(p)
    {
      position := Some(p);
    }

    method Push(e: Entry)
      modifies this`queue
      ensures queue == old(queue) + [e]
    {
      queue := queue + [e];
    }

    method Clear()
      modifies this`queue
      ensures queue == []
    {
      queue := [];
    }
  }

  /** The in-window message adorner (MessageAdorner), attached to one adorner layer. */
  class MessageAdorner {
    const layer: LayerId
    var queue: seq<Entry>
    var position: Option<Position>

    /** `new MessageAdorner(layer)` followed by `layer.Add(...)`. */
    constructor (layer: LayerId)
      ensures this.layer == layer && queue == [] && position.None?
    {
      this.layer := layer;
      queue, position := [], None;
    }

    method SetPosition(p: Position)
      modifies this`position
      ensures position == Some(p)
    {
      position := Some(p);
    }

    method Push(e: Entry)
      modifies this`queue
      ensures queue == old(queue) + [e]
    {
      queue := queue + [e];
    }

    method Clear()
      modifies this`queue
      ensures queue == []
    {
      queue := [];
    }
  }

  /** The static state of the Message class. */
  class Message {
    /** `_messageExt` */
    var desktop: MessageExt?
    /** `_messageAdorner` */
    var overlay: MessageAdorner?
    /** `_position` */
    var position: Position
    /** `lastWindow`, by reference identity */
    var lastWindow: Option<WindowId>

    constructor ()
      ensures desktop == null && overlay == null
      ensures position == InitialPosition && lastWindow == None
    {
      desktop, overlay := null, null;
      position, lastWindow := InitialPosition, None;
    }

    /**
     * PushDesktop: a closed (absent) desktop window is created afresh, an
     * existing one is reused; either way it is shown, placed at the global
     * position, and the message is appended to its queue. The in-window
     * state is not touched.
     */
    method PushDesktop(message: string, kind: MessageBoxImage := DefaultKind, center: bool := DefaultCenter)
      modifies this`desktop, desktop
      ensures desktop != null && desktop.visible && desktop.position == Some(position)
      ensures old(desktop) == null ==> fresh(desktop) && desktop.queue == [Entry(message, kind, center)]
      ensures old(desktop) != null ==>
                desktop == old(desktop) && desktop.queue == old(desktop.queue) + [Entry(message, kind, center)]
      ensures overlay == old(overlay) && position == old(position) && lastWindow == old(lastWindow)
    {
      if desktop == null {
        desktop := new MessageExt();
      }
      if !desktop.visible {
        desktop.Show();
      }
      if desktop.position != Some(position) {
        desktop.SetPosition(position);
      }
      desktop.Push(Entry(message, kind, center));
    }

    /** The desktop window's Closed event: the reference is dropped, so the next PushDesktop creates a new one. */
    method DesktopClosed()
      modifies this`desktop
      ensures desktop == null
    {
      desktop := null;
    }

    /**
     * Push(window, ...): a window other than the last one becomes the last
     * one and the current adorner is discarded, so a new one is created on
     * that window's layer; a repeat push to the same window reuses the
     * adorner. A dropped adorner is only unreferenced: it stays on its layer
     * with its messages. The desktop window is not touched.
     */
    method Push(window: Window, message: string, kind: MessageBoxImage := DefaultKind, center: bool := DefaultCenter)
      returns (outcome: Outcome)
      modifies this`lastWindow, this`overlay, overlay
      ensures lastWindow == Some(window.id)
      ensures old(lastWindow) == Some(window.id) && old(overlay) != null ==>
                outcome == Pass && overlay == old(overlay) && overlay.position == Some(position) &&
                overlay.queue == old(overlay.queue) + [Entry(message, kind, center)]
      ensures old(lastWindow) != Some(window.id) || old(overlay) == null ==>
                (overlay != null ==> fresh(overlay)) && Created(window.layer, message, kind, center, outcome)
      ensures old(overlay) != null && overlay != old(overlay) ==>
                old(overlay).queue == old(overlay.queue) && old(overlay).position == old(overlay.position)
      ensures desktop == old(desktop) && position == old(position)
      ensures desktop != null ==> unchanged(desktop)
    {
      if lastWindow != Some(window.id) {
        lastWindow := Some(window.id);
        overlay := null;
      }
      outcome := CreateMessageAdorner(Some(window), None, message, kind, center);
    }

    /**
     * Push(message, ...): pushes to whatever adorner exists, whichever window
     * it belongs to; with none, one is created on the default window of
     * `app`. `lastWindow` and the desktop window are not touched.
     */
    method PushDefault(app: Option<Application>, message: string, kind: MessageBoxImage := DefaultKind,
                       center: bool := DefaultCenter)
      returns (outcome: Outcome)
      modifies this`overlay, overlay
      ensures old(overlay) != null ==>
                outcome == Pass && overlay == old(overlay) && overlay.position == Some(position) &&
                overlay.queue == old(overlay.queue) + [Entry(message, kind, center)]
      ensures old(overlay) == null ==>
                (overlay != null ==> fresh(overlay)) &&
                Created(GetAdornerLayer(GetDefaultWindow(app)), message, kind, center, outcome)
      ensures desktop == old(desktop) && position == old(position) && lastWindow == old(lastWindow)
      ensures desktop != null ==> unchanged(desktop)
    {
      outcome := CreateMessageAdorner(None, app, message, kind, center);
    }

    /**
     * The state CreateMessageAdorner leaves when it had no adorner to reuse:
     * with no layer it fails and there is still no adorner; otherwise a new
     * adorner sits on that layer at the global position, holding the message
     * only when it is not blank.
     */
    ghost predicate Created(layer: Option<LayerId>, message: string, kind: MessageBoxImage, center: bool, outcome: Outcome)
      reads this, overlay
    {
      if layer.None? then
        outcome == Fail(NoAdornerLayerMessage) && overlay == null
      else
        outcome == Pass && overlay != null && overlay.layer == layer.value &&
        overlay.position == Some(position) &&
        overlay.queue == if IsNullOrWhiteSpace(message) then [] else [Entry(message, kind, center)]
    }

    /**
     * CreateMessageAdorner: reuse the current adorner (syncing its position
     * and appending the message even when blank), or create one on the
     * owner's layer, the owner being the default window of `app` when none is
     * given. `app` is consulted only when there is no owner.
     */
    method CreateMessageAdorner(owner: Option<Window>, app: Option<Application>, message: string,
                                kind: MessageBoxImage, center: bool) returns (outcome: Outcome)
      modifies this`overlay, overlay
      ensures old(overlay) != null ==>
                outcome == Pass && overlay == old(overlay) && overlay.position == Some(position) &&
                overlay.queue == old(overlay.queue) + [Entry(message, kind, center)]
      ensures old(overlay) == null ==>
                (overlay != null ==> fresh(overlay)) &&
                Created(GetAdornerLayer(if owner.Some? then owner else GetDefaultWindow(app)),
                        message, kind, center, outcome)
      ensures desktop == old(desktop) && position == old(position) && lastWindow == old(lastWindow)
    {
      if overlay != null {
        if overlay.position != Some(position) {
          overlay.SetPosition(position);
        }
        overlay.Push(Entry(message, kind, center));
        outcome := Pass;
      } else {
        var resolved := if owner.Some? then owner else GetDefaultWindow(app);
        var layer := GetAdornerLayer(resolved);
        if layer.None? {
          outcome := Fail(NoAdornerLayerMessage);
          return;
        }
        overlay := new MessageAdorner(layer.value);
        if overlay.position != Some(position) {
          overlay.SetPosition(position);
        }
        if !IsNullOrWhiteSpace(message) {
          overlay.Push(Entry(message, kind, center));
        }
        outcome := Pass;
      }
    }

    /**
     * Push(window, ...) as the comment on the reuse path of
     * CreateMessageAdorner intends it: an adorner that is not on the window's
     * layer is recreated as well, so a successful push always lands on the
     * window it names.
     */
    method PushToOwnWindow(window: Window, message: string, kind: MessageBoxImage := DefaultKind,
                           center: bool := DefaultCenter)
      returns (outcome: Outcome)
      modifies this`lastWindow, this`overlay, overlay
      ensures lastWindow == Some(window.id)
      ensures outcome == Pass ==> overlay != null && window.layer == Some(overlay.layer)
      ensures outcome != Pass ==> outcome == Fail(NoAdornerLayerMessage) && overlay == null
      ensures old(lastWindow) == Some(window.id) && old(overlay) != null && window.layer == Some(old(overlay).layer) ==>
                outcome == Pass && overlay == old(overlay) && overlay.position == Some(position) &&
                overlay.queue == old(overlay.queue) + [Entry(message, kind, center)]
      ensures old(lastWindow) != Some(window.id) || old(overlay) == null || window.layer != Some(old(overlay).layer) ==>
                (overlay != null ==> fresh(overlay)) && Created(window.layer, message, kind, center, outcome)
      ensures old(overlay) != null && overlay != old(overlay) ==>
                old(overlay).queue == old(overlay.queue) && old(overlay).position == old(overlay.position)
      ensures desktop == old(desktop) && position == old(position)
      ensures desktop != null ==> unchanged(desktop)
    {
      if lastWindow != Some(window.id) || (overlay != null && window.layer != Some(overlay.layer)) {
        lastWindow := Some(window.id);
        overlay := null;
      }
      outcome := CreateMessageAdorner(Some(window), None, message, kind, center);
    }

    /**
     * SetPosition: the global position becomes p; with p already current
     * nothing changes. Called without an argument it sets Top.
     */
    method SetPosition(p: Position := SetPositionDefault)
      modifies this`position
      ensures position == p
      ensures old(position) == p ==> unchanged(this)
    {
      if position != p {
        position := p;
      }
    }

    /** Clear: empties the adorner's queue but keeps the adorner; a no-op without one. */
    method Clear()
      modifies overlay
      ensures overlay == old(overlay) && desktop == old(desktop) && lastWindow == old(lastWindow)
      ensures overlay != null ==> overlay.queue == [] && overlay.position == old(overlay.position)
      ensures desktop != null ==> unchanged(desktop)
    {
      if overlay != null {
        overlay.Clear();
      }
    }

    /** ClearDesktop: empties the desktop window's queue but keeps the window; a no-op without one. */
    method ClearDesktop()
      modifies desktop
      ensures overlay == old(overlay) && desktop == old(desktop) && lastWindow == old(lastWindow)
      ensures desktop != null ==> desktop.queue == [] && desktop.visible == old(desktop.visible) &&
                                  desktop.position == old(desktop.position)
      ensures overlay != null ==> unchanged(overlay)
    {
      if desktop != null {
        desktop.Clear();
      }
    }
  }
  /**
   * Window 1 has no adorner layer yet when it is first pushed to, so that
   * push fails but leaves it as the last window; a push without a window
   * then creates the adorner on the active window 2; a later push to window 1,
   * now with layer 10, is taken for a repeat push and lands on window 2's
   * layer 20.
   */
  method StrayPushScenario() returns (pushedTo: Window, host: LayerId, hostQueue: seq<Entry>)
    ensures pushedTo.layer == Some(10) && host == 20
    ensures hostQueue == [Entry("b", Information, false), Entry("c", Information, false)]
  {
    var m := new Message();
    var unloaded, other := Window(1, false, None), Window(2, true, Some(20));
    var first := m.Push(unloaded, "a");
    var app := Application([unloaded, other]);
    assert FirstActiveIndex(app.windows) == Some(1) by { assert app.windows[1..] == [other]; }
    assert !IsWhiteSpace("b"[0]);
    var second := m.PushDefault(Some(app), "b");
    pushedTo := Window(1, true, Some(10));
    var third := m.Push(pushedTo, "c");
    host, hostQueue := m.overlay.layer, m.overlay.queue;
  }

  /** The same three pushes with the corrected window push: the last message lands on window 1. */
  method OwnWindowScenario() returns (pushedTo: Window, host: LayerId, hostQueue: seq<Entry>)
    ensures pushedTo.layer == Some(10) && host == 10
    ensures hostQueue == [Entry("c", Information, false)]
  {
    var m := new Message();
    var unloaded, other := Window(1, false, None), Window(2, true, Some(20));
    var first := m.PushToOwnWindow(unloaded, "a");
    var app := Application([unloaded, other]);
    assert FirstActiveIndex(app.windows) == Some(1) by { assert app.windows[1..] == [other]; }
    var second := m.PushDefault(Some(app), "b");
    pushedTo := Window(1, true, Some(10));
    assert !IsWhiteSpace("c"[0]);
    var third := m.PushToOwnWindow(pushedTo, "c");
    host, hostQueue := m.overlay.layer, m.overlay.queue;
  }
}
