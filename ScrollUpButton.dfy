/** The floating scroll-to-top button: a scroll listener that shows the button
    past a fixed offset, subscribed on mount and removed on unmount. */
module ScrollUpButton {
  import opened Api

  /** Vertical offset above which the button shows. */
  const Threshold: int := 300

  /** The rule of `toggleVisibility`: visible exactly when the offset exceeds 300. */
  predicate VisibleAt(scrollY: int)
  {
    scrollY > Threshold
  }

  /** `visible` after the listener has handled the offsets in order, starting from `visible0`. */
  function AfterScrolls(visible0: bool, offsets: seq<int>): bool
    decreases |offsets|
  {
    if offsets == [] then visible0 else AfterScrolls(VisibleAt(offsets[0]), offsets[1..])
  }

  /** One more scroll event, handled after the others. */
  lemma {:induction false} AfterScrollsSnoc(visible0: bool, offsets: seq<int>, y: int)
    ensures AfterScrolls(visible0, offsets + [y]) == VisibleAt(y)
    decreases |offsets|
  {
    if offsets == [] {
      assert offsets + [y] == [y];
    } else {
      assert (offsets + [y])[1..] == offsets[1..] + [y];
      AfterScrollsSnoc(VisibleAt(offsets[0]), offsets[1..], y);
    }
  }

  /** No hysteresis: after any non-empty history, visibility depends on the last
      offset alone, not on the starting state or on earlier offsets. */
  lemma {:induction false} OnlyLastOffsetMatters(visible0: bool, offsets: seq<int>)
    requires offsets != []
    ensures AfterScrolls(visible0, offsets) == VisibleAt(offsets[|offsets| - 1])
  {
    var n := |offsets| - 1;
    assert offsets == offsets[..n] + [offsets[n]];
    AfterScrollsSnoc(visible0, offsets[..n], offsets[n]);
  }

  /** The request `scrollToTop` hands to `window.scrollTo`. */
  datatype ScrollRequest = ScrollRequest(top: int, smooth: bool)

  /** `scrollToTop`: a smooth scroll to offset 0. */
  function ScrollToTop(): (r: ScrollRequest)
    ensures r.top == 0 && r.smooth
  {
    ScrollRequest(0, true)
  }

  /** The render: a button, whose click performs ScrollToTop, exactly while visible. */
  function RenderButton(visible: bool): (button: Option<ScrollRequest>)
    ensures button.Some? <==> visible
    ensures button.Some? ==> button.value.top == 0
  {
    if visible then Some(ScrollToTop()) else None
  }

  /** The component's state, with the window's listener registration. */
  class ScrollButton {
    var visible: bool
    /** Whether `toggleVisibility` is registered on the window. */
    var subscribed: bool
    /** Listener additions and removals so far. */
    ghost var added: nat
    ghost var removed: nat
    /** Offsets delivered to the listener, in order. */
    ghost var handled: seq<int>

    /** The listener is added at most once and is registered exactly between its
        addition and its removal; `visible` reflects the offsets the listener saw. */
    ghost predicate Valid()
      reads this
    {
      && added <= 1 && removed <= added
      && (subscribed <==> added == 1 && removed == 0)
      && visible == AfterScrolls(false, handled)
    }

    /** `useState(false)`: hidden, not yet subscribed. */
    constructor ()
      ensures Valid()
      ensures !visible && !subscribed && added == 0 && removed == 0 && handled == []
    {
      visible, subscribed := false, false;
      added, removed, handled := 0, 0, [];
    }

    /** The mount effect (empty dependency list): add the scroll listener. */
    method Mount()
      requires Valid() && added == 0
      modifies this
      ensures Valid()
      ensures subscribed && added == 1 && removed == 0
      ensures visible == old(visible) && handled == old(handled)
    {
      subscribed := true;
      added := 1;
    }

    /** A window scroll event at offset `scrollY`: when subscribed, the listener sets
        `visible` from the offset alone; otherwise nothing changes. */
    method OnScroll(scrollY: int)
      requires Valid()
      modifies this
      ensures Valid()
      ensures subscribed == old(subscribed) && added == old(added) && removed == old(removed)
      ensures old(subscribed) ==> visible == VisibleAt(scrollY) && handled == old(handled) + [scrollY]
      ensures !old(subscribed) ==> visible == old(visible) && handled == old(handled)
    {
      if subscribed {
        AfterScrollsSnoc(false, handled, scrollY);
        handled := handled + [scrollY];
        if scrollY > Threshold {
          visible := true;
        } else {
          visible := false;
        }
      }
    }

    /** The effect's cleanup on unmount: remove the listener. */
    method Unmount()
      requires Valid() && subscribed
      modifies this
      ensures Valid()
      ensures !subscribed && added == 1 && removed == 1
      ensures visible == old(visible) && handled == old(handled)
    {
      subscribed := false;
      removed := 1;
    }
  }
}
