/**
 * The state machine of src/hooks/useNestedScroll.ts: a parent scroll view is
 * disabled while a nested child list scrolls, and re-enabled when the child's
 * drag or momentum ends. With `debug` on, the last event is also recorded.
 *
 * Logging is left out; the handlers ignore their event argument, so events are
 * modelled by the prop they arrive through.
 */
module NestedScroll {
  import opened Common

  /** The props through which events arrive. */
  datatype ScrollEvent =
    | ChildBeginDrag | ChildEndDrag | ChildMomentumBegin | ChildMomentumEnd
    | ParentBeginDrag | ParentEndDrag

  predicate IsChildStart(e: ScrollEvent) {
    e == ChildBeginDrag || e == ChildMomentumBegin
  }

  predicate IsChildEnd(e: ScrollEvent) {
    e == ChildEndDrag || e == ChildMomentumEnd
  }

  /** The label `lastEvent` takes for an event in debug mode. */
  function EventLabel(e: ScrollEvent): string {
    if IsChildStart(e) then "Child start"
    else if IsChildEnd(e) then "Child end"
    else if e == ParentBeginDrag then "Parent start"
    else "Parent end"
  }

  // ---------------------------------------------------------------------------
  // Specification over event histories

  /** The parent's enabled flag after `events`, starting from `enabled`. */
  function EnabledAfter(enabled: bool, events: seq<ScrollEvent>): bool {
    if events == [] then enabled
    else
      var before := EnabledAfter(enabled, events[..|events| - 1]);
      var e := events[|events| - 1];
      if IsChildStart(e) then false else if IsChildEnd(e) then true else before
  }

  /** `lastEvent` after `events`, starting from `last`. */
  function LastEventAfter(debug: bool, last: string, events: seq<ScrollEvent>): string {
    if events == [] || !debug then last
    else EventLabel(events[|events| - 1])
  }

  /** The most recent child event of a history, if any. */
  function LastChildEvent(events: seq<ScrollEvent>): (r: Option<ScrollEvent>)
    ensures r.Some? ==> r.value in events && !(r.value == ParentBeginDrag || r.value == ParentEndDrag)
  {
    if events == [] then None
    else if IsChildStart(events[|events| - 1]) || IsChildEnd(events[|events| - 1]) then Some(events[|events| - 1])
    else LastChildEvent(events[..|events| - 1])
  }

  /**
   * `LastChildEvent` is what its name says: none exactly when every event was a
   * parent drag, and otherwise a child event after which only parent drags came.
   */
  lemma {:induction false} LastChildEventIsLast(events: seq<ScrollEvent>)
    ensures LastChildEvent(events).None? <==>
              forall i :: 0 <= i < |events| ==> events[i] == ParentBeginDrag || events[i] == ParentEndDrag
    ensures LastChildEvent(events).Some? ==>
              exists i :: 0 <= i < |events| && events[i] == LastChildEvent(events).value
                          && forall j :: i < j < |events| ==> events[j] == ParentBeginDrag || events[j] == ParentEndDrag
  {
    if events != [] {
      var init := events[..|events| - 1];
      var e := events[|events| - 1];
      LastChildEventIsLast(init);
      assert forall i :: 0 <= i < |init| ==> init[i] == events[i];
      if IsChildStart(e) || IsChildEnd(e) {
        assert events[|events| - 1] == LastChildEvent(events).value;
      } else if LastChildEvent(init).Some? {
        var i :| 0 <= i < |init| && init[i] == LastChildEvent(init).value
                 && forall j :: i < j < |init| ==> init[j] == ParentBeginDrag || init[j] == ParentEndDrag;
        assert events[i] == LastChildEvent(events).value;
      }
    }
  }

  /**
   * From the initial state, the parent is enabled exactly when no child event
   * has arrived or the last one was an end.
   */
  lemma {:induction false} EnabledIffLastChildEnded(events: seq<ScrollEvent>)
    ensures EnabledAfter(true, events) <==> LastChildEvent(events).None? || IsChildEnd(LastChildEvent(events).value)
  {
    if events != [] {
      EnabledIffLastChildEnded(events[..|events| - 1]);
    }
  }

  /** Parent drags, however many, leave the flag as it was. */
  lemma {:induction false} ParentDragsKeepFlag(enabled: bool, events: seq<ScrollEvent>)
    requires forall i :: 0 <= i < |events| ==> events[i] == ParentBeginDrag || events[i] == ParentEndDrag
    ensures EnabledAfter(enabled, events) == enabled
  {
    if events != [] {
      ParentDragsKeepFlag(enabled, events[..|events| - 1]);
    }
  }

  // ---------------------------------------------------------------------------
  // The hook's state

  datatype ParentProps = ParentProps(scrollEnabled: bool, nestedScrollEnabled: bool)

  /** The child list's non-handler props; its four event props are wired as `Dispatch` shows. */
  datatype ChildProps = ChildProps(nestedScrollEnabled: bool, estimatedItemSize: int)

  const ChildPropsValue := ChildProps(true, 150)

  class NestedScrollState {
    var isParentScrollEnabled: bool
    var lastEvent: string
    const debug: bool

    /** `useNestedScroll(debug = false)`: enabled, with no event recorded. */
    constructor (debugMode: bool)
      ensures isParentScrollEnabled && lastEvent == "" && debug == debugMode
    {
      isParentScrollEnabled := true;
      lastEvent := "";
      debug := debugMode;
    }

    method OnChildScrollStart()
      modifies this
      ensures !isParentScrollEnabled
      ensures lastEvent == (if debug then "Child start" else old(lastEvent))
    {
      isParentScrollEnabled := false;
      if debug {
        lastEvent := "Child start";
      }
    }

    method OnChildScrollEnd()
      modifies this
      ensures isParentScrollEnabled
      ensures lastEvent == (if debug then "Child end" else old(lastEvent))
    {
      isParentScrollEnabled := true;
      if debug {
        lastEvent := "Child end";
      }
    }

    method OnParentScrollBeginDrag()
      modifies this
      ensures isParentScrollEnabled == old(isParentScrollEnabled)
      ensures lastEvent == (if debug then "Parent start" else old(lastEvent))
    {
      if debug {
        lastEvent := "Parent start";
      }
    }

    method OnParentScrollEndDrag()
      modifies this
      ensures isParentScrollEnabled == old(isParentScrollEnabled)
      ensures lastEvent == (if debug then "Parent end" else old(lastEvent))
    {
      if debug {
        lastEvent := "Parent end";
      }
    }

    /** Delivers one event through the prop it arrives on (`childProps`/`parentProps`). */
    method Dispatch(e: ScrollEvent)
      modifies this
      ensures isParentScrollEnabled == EnabledAfter(old(isParentScrollEnabled), [e])
      ensures lastEvent == LastEventAfter(debug, old(lastEvent), [e])
    {
      match e
      case ChildBeginDrag => OnChildScrollStart();
      case ChildMomentumBegin => OnChildScrollStart();
      case ChildEndDrag => OnChildScrollEnd();
      case ChildMomentumEnd => OnChildScrollEnd();
      case ParentBeginDrag => OnParentScrollBeginDrag();
      case ParentEndDrag => OnParentScrollEndDrag();
    }

    /** Delivers a history of events in order. */
    method Run(events: seq<ScrollEvent>)
      modifies this
      ensures isParentScrollEnabled == EnabledAfter(old(isParentScrollEnabled), events)
      ensures lastEvent == LastEventAfter(debug, old(lastEvent), events)
    {
      var i := 0;
      while i < |events|
        invariant 0 <= i <= |events|
        invariant isParentScrollEnabled == EnabledAfter(old(isParentScrollEnabled), events[..i])
        invariant lastEvent == LastEventAfter(debug, old(lastEvent), events[..i])
      {
        Dispatch(events[i]);
        assert events[..i + 1][..i] == events[..i];
        i := i + 1;
      }
      assert events[..|events|] == events;
    }

    /** `parentProps`: scrolling follows the flag; nested scrolling is always on. */
    function ParentPropsOf(): (p: ParentProps)
      reads this
      ensures p.scrollEnabled == isParentScrollEnabled && p.nestedScrollEnabled
    {
      ParentProps(isParentScrollEnabled, true)
    }

    /** `debugInfo`. */
    function DebugInfo(): (info: (bool, string))
      reads this
      ensures info.0 == isParentScrollEnabled && info.1 == lastEvent
    {
      (isParentScrollEnabled, lastEvent)
    }
  }

  /** With `debug` off, `lastEvent` keeps its initial empty value whatever happens. */
  lemma QuietWithoutDebug(events: seq<ScrollEvent>)
    ensures LastEventAfter(false, "", events) == ""
  {
  }

  /** The child props enable nested scrolling and hint an item size of 150. */
  lemma ChildPropsFixed()
    ensures ChildPropsValue.nestedScrollEnabled && ChildPropsValue.estimatedItemSize == 150
  {
  }
}
