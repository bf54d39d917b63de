/**
 * The side-effect-free queries of ControlsHelper (default window selection,
 * depth-first search of the visual tree) and the compute-once design-mode
 * cache of DesignerHelper.
 */
module ControlsHelper {
  import opened Wrappers

  // ---------------------------------------------------------------------------
  // Windows and the application
  // ---------------------------------------------------------------------------

  /** The reference identity of a Window object. */
  type WindowId = nat

  /** The identity of an AdornerLayer object. */
  type LayerId = nat

  /**
   * A window as it is at the moment of a call: its identity, whether it is
   * the active window, and the adorner layer the framework finds for it
   * (GetAdornerLayer), if any.
   */
  datatype Window = Window(id: WindowId, isActive: bool, layer: Option<LayerId>)

  /** Application.Current: its Windows collection, in collection order. */
  datatype Application = Application(windows: seq<Window>)

  /** Window k is the first active window of ws. */
  ghost predicate FirstActiveAt(ws: seq<Window>, k: int)
  {
    0 <= k < |ws| && ws[k].isActive && forall j :: 0 <= j < k ==> !ws[j].isActive
  }

  /** The index FirstOrDefault(o => o.IsActive) stops at, if any. */
  function FirstActiveIndex(ws: seq<Window>): (r: Option<nat>)
    ensures r.Some? ==> FirstActiveAt(ws, r.value)
    ensures r.None? <==> forall j :: 0 <= j < |ws| ==> !ws[j].isActive
  {
    if |ws| == 0 then None
    else if ws[0].isActive then Some(0)
    else match FirstActiveIndex(ws[1..])
      case None => None
      case Some(k) => Some(k + 1)
  }

  /**
   * GetDefaultWindow: with no application or no window, none; otherwise the
   * first active window, and failing that the first window.
   */
  function GetDefaultWindow(app: Option<Application>): (r: Option<Window>)
    ensures app.None? || app.value.windows == [] ==> r.None?
    ensures app.Some? && (exists k :: FirstActiveAt(app.value.windows, k)) ==>
              exists k :: FirstActiveAt(app.value.windows, k) && r == Some(app.value.windows[k])
    ensures app.Some? && app.value.windows != [] &&
            (forall j :: 0 <= j < |app.value.windows| ==> !app.value.windows[j].isActive) ==>
              r == Some(app.value.windows[0])
  {
    if app.None? || |app.value.windows| == 0 then None
    else
      var ws := app.value.windows;
      match FirstActiveIndex(ws)
      case Some(k) => Some(ws[k])
      case None => Some(ws[0])
  }

  /** GetAdornerLayer, reduced to the layer each window carries; no owner, no layer. */
  function GetAdornerLayer(owner: Option<Window>): Option<LayerId>
  {
    match owner
    case None => None
    case Some(w) => w.layer
  }

  // ---------------------------------------------------------------------------
  // The visual tree and FindVisualChild
  // ---------------------------------------------------------------------------

  /** The name of a runtime type of a visual element. */
  type Kind = string

  /** A visual element and its visual children, in VisualTreeHelper.GetChild order. */
  datatype Visual = Visual(kind: Kind, children: seq<Visual>)

  /** The proper descendants of t in pre-order: each child, then its subtree, child by child. */
  function Descendants(t: Visual): seq<Visual>
    decreases t, 1
  {
    DescendantsFrom(t, 0)
  }

  /** The pre-order of the subtrees of t's children i, i+1, ... */
  function DescendantsFrom(t: Visual, i: nat): seq<Visual>
    requires i <= |t.children|
    decreases t, 0, |t.children| - i
  {
    if i == |t.children| then []
    else [t.children[i]] + Descendants(t.children[i]) + DescendantsFrom(t, i + 1)
  }

  /** The first element of s whose kind satisfies isT (the reference search). */
  function FirstMatch(s: seq<Visual>, isT: Kind -> bool): (r: Option<Visual>)
    ensures r.Some? ==> r.value in s && isT(r.value.kind)
    ensures r.None? <==> forall j :: 0 <= j < |s| ==> !isT(s[j].kind)
  {
    if s == [] then None
    else if isT(s[0].kind) then Some(s[0])
    else FirstMatch(s[1..], isT)
  }

  /**
   * FindVisualChild<T>(parent): `isT` is the type test `child is T`. The
   * result has the requested type and is a proper descendant of parent, and
   * it is absent only when no proper descendant has that type.
   */
  function FindVisualChild(parent: Visual, isT: Kind -> bool): (r: Option<Visual>)
    ensures r.Some? ==> isT(r.value.kind) && r.value in Descendants(parent)
    ensures r.None? <==> forall d :: d in Descendants(parent) ==> !isT(d.kind)
    decreases parent, 1
  {
    FindInChildren(parent, 0, isT)
  }

  /** The loop of FindVisualChild from child i on: test the child, then search below it. */
  function FindInChildren(parent: Visual, i: nat, isT: Kind -> bool): (r: Option<Visual>)
    requires i <= |parent.children|
    ensures r.Some? ==> isT(r.value.kind) && r.value in DescendantsFrom(parent, i)
    ensures r.None? <==> forall d :: d in DescendantsFrom(parent, i) ==> !isT(d.kind)
    decreases parent, 0, |parent.children| - i
  {
    if i == |parent.children| then None
    else
      var child := parent.children[i];
      if isT(child.kind) then Some(child)
      else match FindVisualChild(child, isT)
        case Some(found) => Some(found)
        case None => FindInChildren(parent, i + 1, isT)
  }

  /** The first match of a concatenation is the first match of its left part, if it has one. */
  lemma {:induction false} FirstMatchAppend(a: seq<Visual>, b: seq<Visual>, isT: Kind -> bool)
    ensures FirstMatch(a + b, isT) == if FirstMatch(a, isT).Some? then FirstMatch(a, isT) else FirstMatch(b, isT)
  {
    if a != [] {
      assert (a + b)[0] == a[0];
      assert (a + b)[1..] == a[1..] + b;
      FirstMatchAppend(a[1..], b, isT);
    } else {
      assert a + b == b;
    }
  }

  /**
   * FindVisualChild returns exactly the first element of the pre-order of
   * proper descendants that has the requested type: a child is tested before
   * its own subtree, and earlier siblings' subtrees come before later siblings.
   */
  lemma {:induction false} FindVisualChildIsFirstInPreorder(parent: Visual, isT: Kind -> bool)
    ensures FindVisualChild(parent, isT) == FirstMatch(Descendants(parent), isT)
    decreases parent, 1
  {
    FindInChildrenIsFirstInPreorder(parent, 0, isT);
  }

  lemma {:induction false} FindInChildrenIsFirstInPreorder(parent: Visual, i: nat, isT: Kind -> bool)
    requires i <= |parent.children|
    ensures FindInChildren(parent, i, isT) == FirstMatch(DescendantsFrom(parent, i), isT)
    decreases parent, 0, |parent.children| - i
  {
    if i < |parent.children| {
      var child := parent.children[i];
      var below := Descendants(child);
      var rest := DescendantsFrom(parent, i + 1);
      assert DescendantsFrom(parent, i) == [child] + (below + rest);
      FindVisualChildIsFirstInPreorder(child, isT);
      FindInChildrenIsFirstInPreorder(parent, i + 1, isT);
      FirstMatchAppend(below, rest, isT);
      FirstMatchAppend([child], below + rest, isT);
    }
  }

  /** Every proper descendant of t has fewer descendants than t. */
  lemma {:induction false} DescendantsShrink(t: Visual, d: Visual)
    requires d in Descendants(t)
    ensures |Descendants(d)| < |Descendants(t)|
    decreases t, 1
  {
    DescendantsFromShrink(t, 0, d);
  }

  lemma {:induction false} DescendantsFromShrink(t: Visual, i: nat, d: Visual)
    requires i <= |t.children| && d in DescendantsFrom(t, i)
    ensures |Descendants(d)| < |DescendantsFrom(t, i)|
    decreases t, 0, |t.children| - i
  {
    var child := t.children[i];
    if d == child {
    } else if d in Descendants(child) {
      DescendantsShrink(child, d);
    } else {
      DescendantsFromShrink(t, i + 1, d);
    }
  }

  /** The parent itself is never the result, even when it has the requested type. */
  lemma ParentNeverReturned(parent: Visual, isT: Kind -> bool)
    ensures FindVisualChild(parent, isT) != Some(parent)
  {
    if FindVisualChild(parent, isT) == Some(parent) {
      DescendantsShrink(parent, parent);
    }
  }

  // ---------------------------------------------------------------------------
  // DesignerHelper.IsInDesignMode
  // ---------------------------------------------------------------------------

  /** The process-wide cache `_isInDesignMode` of DesignerHelper. */
  class DesignerHelper {
    var cache: Option<bool>
    /** How many times the framework's property metadata has been consulted. */
    ghost var lookups: nat

    ghost predicate Valid()
      reads this
    {
      (cache.None? <==> lookups == 0) && lookups <= 1
    }

    constructor ()
      ensures Valid() && cache.None?
    {
      cache := None;
      lookups := 0;
    }

    /**
     * Reads IsInDesignMode; `metadataDefault` is what the framework's
     * metadata for IsInDesignModeProperty would report on this read. The
     * metadata is consulted at most once; every later read returns the
     * cached value.
     */
    method IsInDesignMode(metadataDefault: bool) returns (r: bool)
      requires Valid()
      modifies this
      ensures Valid() && cache == Some(r) && lookups == 1
      ensures old(cache).Some? ==> r == old(cache).value && lookups == old(lookups)
      ensures old(cache).None? ==> r == metadataDefault
    {
      if cache.None? {
        cache := Some(metadataDefault);
        lookups := lookups + 1;
      }
      r := cache.value;
    }
  }
}
