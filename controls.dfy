/**
 * The two UIKit controls the footer is made of, reduced to the properties the
 * widget writes: a `UIButton` (title for `.normal`, background colour and the
 * handlers registered for `.touchUpInside`) and a `UITextView`.
 */
module Controls {
  import opened Wrappers
  import opened UIValues
  import opened Actions

  class Button {
    var title: Option<string>
    var backgroundColor: Option<Color>
    var handlers: seq<Handler>

    constructor ()
      ensures title == None && backgroundColor == None && handlers == []
    {
      title := None;
      backgroundColor := None;
      handlers := [];
    }

    /** `setTitle(_:for: .normal)` */
    method SetTitle(t: Option<string>)
      modifies this`title
      ensures title == t
    {
      title := t;
    }

    /** `addAction(_:for: .touchUpInside)`: registers one more handler; none is ever removed. */
    method AddAction(h: Handler)
      modifies this`handlers
      ensures handlers == old(handlers) + [h]
    {
      handlers := handlers + [h];
    }

    /**
     * A touch-up-inside: UIKit runs each registered handler in turn. `own` and
     * `host` are the actions the forwarding closures read at this moment.
     */
    method Tap(own: Option<OnboardingAction>, host: Option<OnboardingAction>) returns (events: seq<Event>)
      ensures events == TapEvents(handlers, own, host)
    {
      events := [];
      var i := 0;
      while i < |handlers|
        invariant 0 <= i <= |handlers|
        invariant events == TapEvents(handlers[..i], own, host)
      {
        assert handlers[..i + 1][..i] == handlers[..i];
        match handlers[i] {
          case ForwardOwnAction =>
            if own.Some? { events := events + [ActionHandlerCalled(own.value)]; }
          case ForwardHostAction =>
            if host.Some? { events := events + [ActionHandlerCalled(host.value)]; }
          case CallOnCommit =>
            events := events + [CommitCalled];
        }
        i := i + 1;
      }
      assert handlers[..i] == handlers;
    }
  }

  class TextView {
    var attributedText: Option<AttributedText>
    var delegate: Option<DelegateRef>
    var isEditable: bool
    var isSelectable: bool
    var isUserInteractionEnabled: bool
    var isScrollEnabled: bool

    /** A fresh `UITextView`: empty, editable, selectable, interactive and scrolling. */
    constructor ()
      ensures attributedText == None && delegate == None
      ensures isEditable && isSelectable && isUserInteractionEnabled && isScrollEnabled
    {
      attributedText := None;
      delegate := None;
      isEditable := true;
      isSelectable := true;
      isUserInteractionEnabled := true;
      isScrollEnabled := true;
    }
  }
}
