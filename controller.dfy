/**
 * `SinglePageOnboardingController`: the public entry point. It checks the
 * number of feature items, stores its arguments, forwards the tint colour and
 * footer text to its view, and re-runs the footer decision when the text size
 * changes.
 */
module Controller {
  import opened Wrappers
  import opened UIValues
  import opened FeatureItems
  import opened Actions
  import opened FooterPlacement
  import opened UIKitView

  class SinglePageOnboardingController {
    const onboardingTitle: string
    const onboardingFeatureItems: seq<OnboadingFeatureItem>
    const onboardingAction: OnboardingAction
    var footerAttributedString: Option<AttributedText>
    var footerTextViewDelegate: Option<DelegateRef>
    var tintColor: Option<Color>
    /** the implicitly unwrapped view, set by `loadView()` */
    var view: SinglePageOnbarodingUIKitView?

    /** `init(onboardingTitle:onboardingFeatureItems:onboardingAction:)` once its precondition holds. */
    constructor (onboardingTitle: string, onboardingFeatureItems: seq<OnboadingFeatureItem>, onboardingAction: OnboardingAction)
      requires |onboardingFeatureItems| <= 3
      ensures this.onboardingTitle == onboardingTitle
      ensures this.onboardingFeatureItems == onboardingFeatureItems
      ensures this.onboardingAction == onboardingAction
      ensures footerAttributedString == None && footerTextViewDelegate == None && tintColor == None
      ensures view == null
    {
      this.onboardingTitle := onboardingTitle;
      this.onboardingFeatureItems := onboardingFeatureItems;
      this.onboardingAction := onboardingAction;
      footerAttributedString, footerTextViewDelegate, tintColor := None, None, None;
      view := null;
    }

    /**
     * Calling the initialiser: `precondition(count <= 3)` traps (None) on four
     * or more items; otherwise the new controller stores the arguments as given.
     */
    static method Make(onboardingTitle: string, onboardingFeatureItems: seq<OnboadingFeatureItem>, onboardingAction: OnboardingAction)
      returns (r: Option<SinglePageOnboardingController>)
      ensures r.Some? <==> |onboardingFeatureItems| <= 3
      ensures r.Some? ==> fresh(r.value) && r.value.view == null
      ensures r.Some? ==> r.value.onboardingTitle == onboardingTitle
      ensures r.Some? ==> r.value.onboardingFeatureItems == onboardingFeatureItems
      ensures r.Some? ==> r.value.onboardingAction == onboardingAction
    {
      if |onboardingFeatureItems| <= 3 {
        var c := new SinglePageOnboardingController(onboardingTitle, onboardingFeatureItems, onboardingAction);
        r := Some(c);
      } else {
        r := None;
      }
    }

    /** `loadView()`: installs the onboarding view (built by the caller here). */
    method LoadView(v: SinglePageOnbarodingUIKitView)
      modifies this`view
      ensures view == v
    {
      view := v;
    }

    /**
     * Assigning `footerAttributedString`. The value is stored, then its
     * `didSet` writes through the implicitly unwrapped view: it reaches the view
     * once `loadView()` has run, and traps (`trapped`) while there is no view yet.
     */
    method SetFooterAttributedString(s: Option<AttributedText>) returns (trapped: bool)
      modifies this`footerAttributedString, (if view == null then {} else {view})`footerAttributedString
      ensures footerAttributedString == s
      ensures trapped <==> view == null
      ensures view != null ==> view.footerAttributedString == s
    {
      footerAttributedString := s;
      if view == null {
        trapped := true;
      } else {
        trapped := false;
        view.footerAttributedString := s;
      }
    }

    /** Assigning `footerTextViewDelegate`: its `didSet` is empty, so nothing else changes. */
    method SetFooterTextViewDelegate(d: Option<DelegateRef>)
      modifies this`footerTextViewDelegate
      ensures footerTextViewDelegate == d
    {
      footerTextViewDelegate := d;
    }

    /**
     * Assigning `tintColor`: the loaded view's tint becomes the colour, or
     * system blue for nil; before `loadView()` the write traps (`trapped`).
     */
    method SetTintColor(c: Option<Color>) returns (trapped: bool)
      modifies this`tintColor, (if view == null then {} else {view})`tintColor
      ensures tintColor == c
      ensures trapped <==> view == null
      ensures view != null && c.Some? ==> view.tintColor == c.value
      ensures view != null && c.None? ==> view.tintColor == SystemBlue
    {
      tintColor := c;
      if view == null {
        trapped := true;
      } else {
        trapped := false;
        view.tintColor := c.GetOr(SystemBlue);
      }
    }

    /**
     * `traitCollectionDidChange(_:)`: the footer decision runs again exactly
     * when the preferred content-size category differs from the previous
     * trait collection's (a missing previous collection counts as different).
     * The re-run goes through the implicitly unwrapped view, so it traps
     * (`trapped`) when there is no view yet.
     */
    method TraitCollectionDidChange(previous: Option<ContentSizeCategory>, current: ContentSizeCategory,
                                    contentHeight: real, footerHeight: real, boundsHeight: real)
      returns (reran: bool, trapped: bool)
      requires view != null ==> view.Valid()
      modifies (if view == null then {} else {view})`scrollEnabled
      modifies (if view == null then {} else {view})`snapshot
      modifies (if view == null then {} else {view})`applyCount
      modifies (if view == null then {} else {view.footerView})`isHidden
      ensures reran <==> previous != Some(current)
      ensures trapped <==> reran && view == null
      ensures view != null ==> view.Valid()
      ensures view != null && reran ==>
        view.State() == Decide(old(view.State()), contentHeight, footerHeight, boundsHeight, 0.0)
      ensures view != null && !reran ==> view.State() == old(view.State()) && view.snapshot == old(view.snapshot)
    {
      reran := Some(current) != previous;
      trapped := reran && view == null;
      if reran && view != null {
        view.UseAppropriateFooterRespectingForActualContentSize(contentHeight, footerHeight, boundsHeight);
      }
    }
  }
}
