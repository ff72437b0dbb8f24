/**
 * `OnbarodingView` (the spelling is the source's): the list of title, feature
 * rows and footer, plus a pinned `FooterView` used while the content fits.
 * Layout measurements are inputs; the layout engine is not modelled.
 */
module OnboardingView {
  import opened Wrappers
  import opened UIValues
  import opened FeatureItems
  import opened Actions
  import opened Controls
  import opened FooterViews
  import opened FeatureViews
  import opened Cells
  import opened Snapshots
  import opened FooterPlacement

  class OnbarodingView {
    var title: Option<string>
    var featureItems: seq<OnboadingFeatureItem>
    var action: Option<OnboardingAction>
    var footerAttributedString: Option<AttributedText>
    var footerTextViewDelegate: Option<DelegateRef>
    var spaceBetweenEachFeatureItem: real
    /** `UIView.tintColor` as this view resolves it */
    var tintColor: Color
    const footerView: FooterView
    /** `containerCollectionView.isScrollEnabled` */
    var scrollEnabled: bool
    /** the snapshot the data source currently shows */
    var snapshot: Snapshot
    /** how many times a snapshot has been applied to the data source */
    var applyCount: nat

    /** Sections header, main, footer, and a footer section that is empty or the single footer row. */
    ghost predicate WellFormedSnapshot()
      reads this`snapshot
    {
      && snapshot.sections == AllSections
      && HeaderSection in snapshot.items && MainSection in snapshot.items && FooterSection in snapshot.items
      && WellFormedFooterSection(snapshot.items[FooterSection])
    }

    /**
     * The pinned footer's own `action` is never assigned (this view keeps the
     * action itself), and every handler on its button forwards this view's action.
     */
    ghost predicate PinnedButtonForwardsAction()
      reads footerView`action, footerView.button`handlers
    {
      && footerView.action == None
      && forall i :: 0 <= i < |footerView.button.handlers| ==> footerView.button.handlers[i] == ForwardHostAction
    }

    ghost predicate Valid()
      reads this`snapshot, footerView`action, footerView.button`handlers
    {
      WellFormedSnapshot() && PinnedButtonForwardsAction()
    }

    /** `dataSource.snapshot(for: .footer).visibleItems` */
    function FooterRows(): seq<Item>
      reads this`snapshot
      requires FooterSection in snapshot.items
    {
      snapshot.items[FooterSection]
    }

    /** The footer state the placement decision works on. */
    function State(): FooterState
      reads this`snapshot, this`scrollEnabled, this`applyCount, footerView`isHidden
      requires FooterSection in snapshot.items
    {
      FooterState(footerView.isHidden, scrollEnabled, FooterRows(), applyCount)
    }

    /** `init(title:featureItems:)`, whose `setup()` ends with `applyInitialData()`. */
    constructor (title: Option<string>, featureItems: seq<OnboadingFeatureItem>)
      ensures Valid() && fresh(footerView) && fresh(footerView.button) && fresh(footerView.textView)
      ensures footerView.action == None && footerView.button.handlers == []
      ensures this.title == title && this.featureItems == featureItems
      ensures action == None && footerAttributedString == None && footerTextViewDelegate == None
      ensures spaceBetweenEachFeatureItem == 30.0 && !footerView.isHidden && scrollEnabled
      ensures snapshot.items[HeaderSection] == [HeaderItem]
      ensures snapshot.items[MainSection] == FeatureRows(featureItems)
      ensures snapshot.items[FooterSection] == [FooterItem]
      ensures applyCount == 1
    {
      this.title := title;
      this.featureItems := featureItems;
      action, footerAttributedString, footerTextViewDelegate := None, None, None;
      spaceBetweenEachFeatureItem := 30.0;
      tintColor := SystemBlue;
      footerView := new FooterView();
      scrollEnabled := true;
      snapshot := EmptySnapshot();
      applyCount := 0;
      new;
      ApplyInitialData();
    }

    /**
     * `applyInitialData()`: sections header, main, footer; the title row, one
     * row per feature item in order, and the footer row; applied once.
     */
    method ApplyInitialData()
      modifies this`snapshot, this`applyCount
      ensures WellFormedSnapshot()
      ensures snapshot.items[HeaderSection] == [HeaderItem]
      ensures snapshot.items[MainSection] == FeatureRows(featureItems)
      ensures snapshot.items[FooterSection] == [FooterItem]
      ensures applyCount == old(applyCount) + 1
    {
      var s := EmptySnapshot();
      s := AppendSections(s, AllSections);
      AppendAllSectionsToEmpty();
      s := AppendItems(s, [HeaderItem], HeaderSection);
      s := AppendItems(s, FeatureRows(featureItems), MainSection);
      s := AppendItems(s, [FooterItem], FooterSection);
      snapshot := s;
      applyCount := applyCount + 1;
    }

    /**
     * `useAppropriateFooterRespectingForActualContentSize()`, with the footer
     * view's height added once more as a stabiliser. It runs from every
     * `layoutSubviews()`; it applies the footer section only when its rows
     * changed, which is what ends the layout recursion.
     */
    method UseAppropriateFooterRespectingForActualContentSize(contentHeight: real, footerHeight: real, boundsHeight: real)
      requires Valid()
      modifies this`scrollEnabled, this`snapshot, this`applyCount, footerView`isHidden
      ensures Valid()
      ensures State() == Decide(old(State()), contentHeight, footerHeight, boundsHeight, footerHeight)
      ensures snapshot == ReplaceSection(old(snapshot), FooterSection, FooterRows())
    {
      var actualContentHeight := contentHeight;
      var currentRows := FooterRows();
      if |currentRows| == 0 {
        actualContentHeight := actualContentHeight + footerHeight;
      }
      var stabilizer := footerHeight;
      actualContentHeight := actualContentHeight + stabilizer;

      if actualContentHeight >= boundsHeight {
        footerView.isHidden := true;
        if |currentRows| == 0 {
          currentRows := currentRows + [FooterItem];
        }
        scrollEnabled := true;
      } else {
        footerView.isHidden := false;
        if |currentRows| > 0 {
          currentRows := Delete(currentRows, FooterItem);
        }
        scrollEnabled := false;
      }

      if currentRows != FooterRows() {
        snapshot := ReplaceSection(snapshot, FooterSection, currentRows);
        applyCount := applyCount + 1;
      }
    }

    /**
     * Assigning `action`. Its `didSet` retitles the pinned footer's button,
     * paints it with this view's tint and registers one more handler that
     * forwards this view's action at tap time.
     */
    method SetAction(a: Option<OnboardingAction>)
      requires Valid()
      modifies this`action, footerView.button
      ensures Valid()
      ensures action == a
      ensures footerView.button.title == TitleOf(a)
      ensures footerView.button.backgroundColor == Some(tintColor)
      ensures footerView.button.handlers == old(footerView.button.handlers) + [ForwardHostAction]
    {
      action := a;
      footerView.button.SetTitle(TitleOf(a));
      footerView.button.backgroundColor := Some(tintColor);
      footerView.button.AddAction(ForwardHostAction);
    }

    /**
     * A tap on the pinned footer's button: every registered handler forwards
     * the action current at tap time, so a tap while it is nil calls nothing
     * and otherwise calls the action's handler once per registration.
     */
    method TapPinnedButton() returns (events: seq<Event>)
      requires Valid()
      ensures events == TapEvents(footerView.button.handlers, footerView.action, action)
      ensures action.None? ==> events == []
      ensures action.Some? ==> |events| == |footerView.button.handlers|
      ensures action.Some? ==> forall k :: 0 <= k < |events| ==> events[k] == ActionHandlerCalled(action.value)
    {
      events := footerView.TapButton(action);
      if action.None? {
        TapWithoutActionCallsNothing(footerView.button.handlers, footerView.action, action);
      } else {
        TapCallsActionOncePerHandler(footerView.button.handlers, footerView.action, action, action.value);
      }
    }

    /** Assigning `footerAttributedString`: forwarded to the pinned footer's text view. */
    method SetFooterAttributedString(s: Option<AttributedText>)
      modifies this`footerAttributedString, footerView.textView`attributedText
      ensures footerAttributedString == s && footerView.textView.attributedText == s
    {
      footerAttributedString := s;
      footerView.textView.attributedText := s;
    }

    /** Assigning `footerTextViewDelegate`: forwarded to the pinned footer's text view. */
    method SetFooterTextViewDelegate(d: Option<DelegateRef>)
      modifies this`footerTextViewDelegate, footerView.textView`delegate
      ensures footerTextViewDelegate == d && footerView.textView.delegate == d
    {
      footerTextViewDelegate := d;
      footerView.textView.delegate := d;
    }

    /**
     * The feature-cell registration: for a feature row, the cell shows the
     * item, tints the image with the item's colour or else this view's tint,
     * and spaces rows by `spaceBetweenEachFeatureItem`. Other rows are left alone.
     */
    method ConfigureFeatureCell(cell: FeatureView, row: Item)
      modifies cell`titleText, cell`descriptionText, cell`image, cell`imageTintColor
      modifies cell`imageWidthConstant, cell`imageHeightConstant, cell`bottomConstant, cell`spacing
      ensures !row.Onboarding? ==> unchanged(cell)
      ensures row.Onboarding? ==>
        && cell.titleText == Some(row.feature.title) && cell.descriptionText == Some(row.feature.description)
        && cell.image == Some(row.feature.image)
        && cell.imageTintColor == Some(row.feature.imageColor.GetOr(tintColor))
        && cell.ImageSize() == row.feature.imageSize
        && cell.SpaceBetweenItem() == spaceBetweenEachFeatureItem
        && cell.spacing == row.feature.spacingBetweenImageAndContentView
    {
      if row.Onboarding? {
        var item := row.feature;
        cell.titleText, cell.descriptionText := Some(item.title), Some(item.description);
        cell.image := Some(item.image);
        cell.imageTintColor := Some(item.imageColor.GetOr(tintColor));
        cell.SetImageSize(item.imageSize);
        cell.SetSpaceBetweenItem(spaceBetweenEachFeatureItem);
        cell.spacing := item.spacingBetweenImageAndContentView;
      }
    }

    /**
     * The footer-cell registration: the cell's footer gets this view's footer
     * text, delegate, the action's title, this view's tint, and one more
     * handler forwarding this view's action.
     */
    method ConfigureFooterCell(cell: FooterCell)
      modifies cell.GetTextView()`attributedText, cell.GetTextView()`delegate, cell.GetButton()
      ensures cell.GetTextView().attributedText == footerAttributedString
      ensures cell.GetTextView().delegate == footerTextViewDelegate
      ensures cell.GetButton().title == TitleOf(action)
      ensures cell.GetButton().backgroundColor == Some(tintColor)
      ensures cell.GetButton().handlers == old(cell.GetButton().handlers) + [ForwardHostAction]
    {
      var textView := cell.GetTextView();
      textView.attributedText := footerAttributedString;
      textView.delegate := footerTextViewDelegate;
      var button := cell.GetButton();
      button.SetTitle(TitleOf(action));
      button.backgroundColor := Some(tintColor);
      button.AddAction(ForwardHostAction);
    }
  }
}
