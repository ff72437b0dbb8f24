/**
 * The list cells of Cells.swift. `FooterCell` wraps a `FooterView` and exposes
 * its members through a dynamic-member subscript; here that subscript is one
 * pass-through accessor per member: reads come from the wrapped footer view and
 * writes go to it. (`HeaderCell` is pure layout and the `FeatureView` copy is
 * modelled by `FeatureViews.FeatureView`.)
 */
module Cells {
  import opened Wrappers
  import opened UIValues
  import opened Actions
  import opened Controls
  import opened FooterViews

  class FooterCell {
    const footerView: FooterView

    constructor ()
      ensures fresh(footerView) && fresh(footerView.textView) && fresh(footerView.button)
      ensures footerView.action == None && footerView.button.handlers == []
    {
      footerView := new FooterView();
    }

    /** `cell.textView`: the wrapped footer view's text view itself. */
    function GetTextView(): TextView
      reads this
    {
      footerView.textView
    }

    /** `cell.button` */
    function GetButton(): Button
      reads this
    {
      footerView.button
    }

    /** `cell.action` */
    function GetAction(): Option<OnboardingAction>
      reads this, footerView
    {
      footerView.action
    }

    /**
     * `cell.action = a`: writes through to the footer view (running its
     * `didSet`); reading it back gives `a`, and the other members still name
     * the same text view and button.
     */
    method SetAction(a: Option<OnboardingAction>, tintColor: Color)
      modifies footerView`action, footerView.button
      ensures GetAction() == a
      ensures GetTextView() == old(GetTextView()) && GetButton() == old(GetButton())
      ensures GetButton().title == TitleOf(a) && GetButton().backgroundColor == Some(tintColor)
      ensures GetButton().handlers == old(GetButton().handlers) + [ForwardOwnAction]
    {
      footerView.SetAction(a, tintColor);
    }
  }
}
