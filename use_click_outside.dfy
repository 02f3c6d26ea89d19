/**
 * `useClickOutside`: while mounted, a document-level listener for `mousedown`
 * and `touchstart` calls the handler unless the ref is empty or the event's
 * target lies inside the referenced element.
 *
 * The DOM tree is a parent map over node identities; `Node.contains` is its
 * inclusive-descendant test (section 4.4 of the WHATWG DOM Living Standard).
 */
module UseClickOutside {
  import opened Common

  type Node = nat

  /** Each node's parent; roots have no entry. */
  type ParentMap = map<Node, Node>

  /**
   * `element.contains(other)`: walks up from `other`. Each step drops the node
   * it leaves from the map, so the walk ends even on a map with a cycle.
   */
  function Contains(parent: ParentMap, element: Node, other: Node): (inside: bool)
    decreases |parent|
  {
    if other == element then true
    else if other in parent then
      assert |parent - {other}| < |parent| by {
        assert (parent - {other}).Keys == parent.Keys - {other};
      }
      Contains(parent - {other}, element, parent[other])
    else false
  }

  /** `path` climbs the tree: each node's parent is the next node. */
  ghost predicate IsChain(parent: ParentMap, path: seq<Node>)
  {
    && |path| > 0
    && forall i :: 0 <= i < |path| - 1 ==> path[i] in parent && parent[path[i]] == path[i + 1]
  }

  /** `other` is an inclusive descendant of `element`: a chain leads from `other` up to `element`. */
  ghost predicate InclusiveDescendant(parent: ParentMap, element: Node, other: Node)
  {
    exists path :: IsChain(parent, path) && path[0] == other && path[|path| - 1] == element
  }

  lemma ChainInLargerMap(small: ParentMap, large: ParentMap, path: seq<Node>)
    requires IsChain(small, path)
    requires forall n :: n in small ==> n in large && large[n] == small[n]
    ensures IsChain(large, path)
  {
  }

  /** Every node `Contains` accepts lies on a chain up to the element. */
  lemma {:induction false} ContainsSound(parent: ParentMap, element: Node, other: Node)
    requires Contains(parent, element, other)
    ensures InclusiveDescendant(parent, element, other)
    decreases |parent|
  {
    if other == element {
      assert IsChain(parent, [other]);
    } else {
      var smaller := parent - {other};
      assert (parent - {other}).Keys == parent.Keys - {other};
      ContainsSound(smaller, element, parent[other]);
      var path :| IsChain(smaller, path) && path[0] == parent[other] && path[|path| - 1] == element;
      ChainInLargerMap(smaller, parent, path);
      var full := [other] + path;
      assert IsChain(parent, full) by {
        forall i | 0 <= i < |full| - 1 ensures full[i] in parent && parent[full[i]] == full[i + 1] {
          if i > 0 {
            assert full[i] == path[i - 1] && full[i + 1] == path[i];
          }
        }
      }
    }
  }

  /** Every node on a chain up to the element is accepted by `Contains`, whatever the chain's detours. */
  lemma {:induction false} ContainsComplete(parent: ParentMap, element: Node, path: seq<Node>)
    requires IsChain(parent, path) && path[|path| - 1] == element
    ensures Contains(parent, element, path[0])
    decreases |parent|, |path|
  {
    var other := path[0];
    if other == element {
      return;
    }
    assert |path| > 1;
    if j :| 1 <= j < |path| && path[j] == other {
      // The chain comes back to where it started: cut out the loop.
      var tail := path[j..];
      assert IsChain(parent, tail) by {
        forall i | 0 <= i < |tail| - 1 ensures tail[i] in parent && parent[tail[i]] == tail[i + 1] {
          assert tail[i] == path[j + i] && tail[i + 1] == path[j + i + 1];
        }
      }
      ContainsComplete(parent, element, tail);
    } else {
      var smaller := parent - {other};
      assert (parent - {other}).Keys == parent.Keys - {other};
      var tail := path[1..];
      assert IsChain(smaller, tail) by {
        forall i | 0 <= i < |tail| - 1 ensures tail[i] in smaller && smaller[tail[i]] == tail[i + 1] {
          assert tail[i] == path[i + 1] && tail[i + 1] == path[i + 2];
        }
      }
      ContainsComplete(smaller, element, tail);
    }
  }

  /** `Contains` is exactly the inclusive-descendant relation. */
  lemma ContainsIffInclusiveDescendant(parent: ParentMap, element: Node, other: Node)
    ensures Contains(parent, element, other) <==> InclusiveDescendant(parent, element, other)
  {
    if Contains(parent, element, other) {
      ContainsSound(parent, element, other);
    }
    if InclusiveDescendant(parent, element, other) {
      var path :| IsChain(parent, path) && path[0] == other && path[|path| - 1] == element;
      ContainsComplete(parent, element, path);
    }
  }

  datatype EventKind = MouseDown | TouchStart | OtherEvent(name: string)

  datatype PointerEvent = PointerEvent(kind: EventKind, target: Node)

  /** The `listener` body: whether the handler runs for an event on `target`. */
  function ShouldHandle(parent: ParentMap, refCurrent: Option<Node>, target: Node): (fire: bool)
  {
    refCurrent.Some? && !Contains(parent, refCurrent.value, target)
  }

  /** The handler runs iff the ref holds an element and the target is not an inclusive descendant of it. */
  lemma ShouldHandleIff(parent: ParentMap, refCurrent: Option<Node>, target: Node)
    ensures ShouldHandle(parent, refCurrent, target) <==>
      refCurrent.Some? && !InclusiveDescendant(parent, refCurrent.value, target)
  {
    if refCurrent.Some? {
      ContainsIffInclusiveDescendant(parent, refCurrent.value, target);
    }
  }

  /** The event types the effect subscribes to. */
  const ListenedKinds: set<EventKind> := {MouseDown, TouchStart}

  /** One `useClickOutside(ref, handler)` instance; `handled` records the handler's calls. */
  class ClickOutside {
    var listeners: set<EventKind>
    var handled: seq<PointerEvent>

    /** The first render; the effect has not run yet. */
    constructor ()
      ensures listeners == {} && handled == []
    {
      listeners := {};
      handled := [];
    }

    /** The effect: subscribe the same listener to both event types. */
    method Mount()
      modifies this`listeners
      ensures listeners == ListenedKinds
    {
      listeners := {MouseDown, TouchStart};
    }

    /** A document event, read against the current tree and `ref.current`. */
    method Dispatch(event: PointerEvent, parent: ParentMap, refCurrent: Option<Node>)
      modifies this`handled
      ensures handled == if event.kind in listeners && ShouldHandle(parent, refCurrent, event.target)
                         then old(handled) + [event] else old(handled)
    {
      if event.kind in listeners {
        var element := refCurrent;
        if element.None? || Contains(parent, element.value, event.target) {
          return;
        }
        handled := handled + [event];
      }
    }

    /** The effect's cleanup: unsubscribe both event types. */
    method Teardown()
      modifies this`listeners
      ensures listeners == {}
    {
      listeners := {};
    }
  }

  /**
   * A tree body(0) > element(1) > child(2): presses on the body reach the
   * handler once each, whether mouse or touch; presses on the element or its
   * child do not; after teardown nothing does.
   */
  method PressInsideAndOutside() returns (outside: seq<PointerEvent>, inside: seq<PointerEvent>, afterTeardown: seq<PointerEvent>)
    ensures outside == [PointerEvent(MouseDown, 0), PointerEvent(TouchStart, 0)]
    ensures inside == outside
    ensures afterTeardown == outside
  {
    var tree: ParentMap := map[1 := 0, 2 := 1];
    var hook := new ClickOutside();
    hook.Mount();
    hook.Dispatch(PointerEvent(MouseDown, 0), tree, Some(1));
    hook.Dispatch(PointerEvent(TouchStart, 0), tree, Some(1));
    outside := hook.handled;
    hook.Dispatch(PointerEvent(MouseDown, 1), tree, Some(1));
    hook.Dispatch(PointerEvent(MouseDown, 2), tree, Some(1));
    inside := hook.handled;
    hook.Teardown();
    hook.Dispatch(PointerEvent(MouseDown, 0), tree, Some(1));
    afterTeardown := hook.handled;
  }

  /** With `ref.current` null, no event reaches the handler. */
  method NullRefIgnored(parent: ParentMap, target: Node) returns (calls: seq<PointerEvent>)
    ensures calls == []
  {
    var hook := new ClickOutside();
    hook.Mount();
    hook.Dispatch(PointerEvent(MouseDown, target), parent, None);
    calls := hook.handled;
  }
}
