/** `FooterView`: the footer text view above the call-to-action button. */
module FooterViews {
  import opened Wrappers
  import opened UIValues
  import opened Actions
  import opened Controls

  class FooterView {
    var action: Option<OnboardingAction>
    const textView: TextView
    const button: Button
    /** `UIView.isHidden` */
    var isHidden: bool

    /** `init(frame:)`: a read-only, selectable, non-scrolling text view and a bare button. */
    constructor ()
      ensures fresh(textView) && fresh(button)
      ensures action == None && !isHidden
      ensures !textView.isEditable && textView.isSelectable && textView.isUserInteractionEnabled
      ensures !textView.isScrollEnabled
      ensures textView.attributedText == None && textView.delegate == None
      ensures button.title == None && button.backgroundColor == None && button.handlers == []
    {
      var tv := new TextView();
      tv.isEditable := false;
      tv.isSelectable := true;
      tv.isUserInteractionEnabled := true;
      tv.isScrollEnabled := false;
      textView := tv;
      button := new Button();
      action := None;
      isHidden := false;
    }

    /**
     * Assigning `action`. Its `didSet` retitles the button, paints it with the
     * view's tint colour and registers one more forwarding handler, so every
     * assignment, nil included, adds a handler and none is ever removed.
     */
    method SetAction(a: Option<OnboardingAction>, tintColor: Color)
      modifies this`action, button
      ensures action == a
      ensures button.title == TitleOf(a)
      ensures button.backgroundColor == Some(tintColor)
      ensures button.handlers == old(button.handlers) + [ForwardOwnAction]
    {
      action := a;
      button.SetTitle(TitleOf(a));
      button.backgroundColor := Some(tintColor);
      button.AddAction(ForwardOwnAction);
    }

    /** A tap on the button; `host` is the action of the view hosting this footer, if it registered handlers. */
    method TapButton(host: Option<OnboardingAction>) returns (events: seq<Event>)
      ensures events == TapEvents(button.handlers, action, host)
    {
      events := button.Tap(action, host);
    }
  }
}
