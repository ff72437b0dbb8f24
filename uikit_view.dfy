/**
 * `SinglePageOnbarodingUIKitView` (the spelling is the source's): the later
 * variant of the onboarding view, configured once at construction with a
 * button title, an optional accent colour and a commit callback, and without a
 * stabiliser in its footer decision.
 */
module UIKitView {
  import opened Wrappers
  import opened UIValues
  import opened FeatureItems
  import opened Actions
  import opened Controls
  import opened FooterViews
  import opened FeatureViews
  import opened Cells
  import opened Snapshots
  import opened FooterPlacement

  class SinglePageOnbarodingUIKitView {
    const onboardingTitle: string
    const onboardingItems: seq<OnboadingFeatureItem>
    /** declared `let` by the view, but written by the controller */
    var footerAttributedString: Option<AttributedText>
    const buttonTitle: string
    const accentColor: Option<Color>
    /** `UIView.tintColor` */
    var tintColor: Color
    const footerView: FooterView
    var scrollEnabled: bool
    var snapshot: Snapshot
    var applyCount: nat

    /** Sections header, main, footer, and a footer section that is empty or the single footer row. */
    ghost predicate WellFormedSnapshot()
      reads this`snapshot
    {
      && snapshot.sections == AllSections
      && HeaderSection in snapshot.items && MainSection in snapshot.items && FooterSection in snapshot.items
      && WellFormedFooterSection(snapshot.items[FooterSection])
    }

    /** The pinned footer's `action` is never assigned, and its button's only handler calls `onCommit`. */
    ghost predicate PinnedButtonCommits()
      reads footerView`action, footerView.button`handlers
    {
      footerView.action == None && footerView.button.handlers == [CallOnCommit]
    }

    ghost predicate Valid()
      reads this`snapshot, footerView`action, footerView.button`handlers
    {
      WellFormedSnapshot() && PinnedButtonCommits()
    }

    function FooterRows(): seq<Item>
      reads this`snapshot
      requires FooterSection in snapshot.items
    {
      snapshot.items[FooterSection]
    }

    function State(): FooterState
      reads this`snapshot, this`scrollEnabled, this`applyCount, footerView`isHidden
      requires FooterSection in snapshot.items
    {
      FooterState(footerView.isHidden, scrollEnabled, FooterRows(), applyCount)
    }

    /**
     * `init(onboardingTitle:onboardingItems:footerAttributedString:buttonTitle:accentColor:onCommit:)`
     * with its `setup()`: the pinned footer shows the footer text and the
     * button title, its button is the accent colour or else system blue and
     * calls `onCommit`; the list holds the title row, the items in order and
     * the footer row, applied once.
     */
    constructor (onboardingTitle: string, onboardingItems: seq<OnboadingFeatureItem>,
                 footerAttributedString: Option<AttributedText>, buttonTitle: string, accentColor: Option<Color>)
      ensures Valid() && fresh(footerView) && fresh(footerView.button) && fresh(footerView.textView)
      ensures this.onboardingTitle == onboardingTitle && this.onboardingItems == onboardingItems
      ensures this.footerAttributedString == footerAttributedString
      ensures this.buttonTitle == buttonTitle && this.accentColor == accentColor
      ensures footerView.textView.attributedText == footerAttributedString
      ensures footerView.button.title == Some(buttonTitle)
      ensures footerView.button.backgroundColor == Some(accentColor.GetOr(SystemBlue))
      ensures footerView.button.handlers == [CallOnCommit]
      ensures footerView.action == None && !footerView.isHidden && scrollEnabled
      ensures snapshot.items[HeaderSection] == [HeaderItem]
      ensures snapshot.items[MainSection] == FeatureRows(onboardingItems)
      ensures snapshot.items[FooterSection] == [FooterItem]
      ensures applyCount == 1
    {
      this.onboardingTitle := onboardingTitle;
      this.onboardingItems := onboardingItems;
      this.footerAttributedString := footerAttributedString;
      this.buttonTitle := buttonTitle;
      this.accentColor := accentColor;
      tintColor := SystemBlue;
      var footer := new FooterView();
      footer.textView.attributedText := footerAttributedString;
      footer.button.SetTitle(Some(buttonTitle));
      footer.button.backgroundColor := Some(accentColor.GetOr(SystemBlue));
      footer.button.AddAction(CallOnCommit);
      footerView := footer;
      scrollEnabled := true;
      snapshot := EmptySnapshot();
      applyCount := 0;
      new;
      ApplyInitialSnapshot();
    }

    /**
     * The snapshot built by `setup()`: sections header, main, footer; the
     * title row, one row per item in order, and the footer row; applied once.
     */
    method ApplyInitialSnapshot()
      modifies this`snapshot, this`applyCount
      ensures WellFormedSnapshot()
      ensures snapshot.items[HeaderSection] == [HeaderItem]
      ensures snapshot.items[MainSection] == FeatureRows(onboardingItems)
      ensures snapshot.items[FooterSection] == [FooterItem]
      ensures applyCount == old(applyCount) + 1
    {
      var s := EmptySnapshot();
      s := AppendSections(s, AllSections);
      AppendAllSectionsToEmpty();
      s := AppendItems(s, [HeaderItem], HeaderSection);
      s := AppendItems(s, FeatureRows(onboardingItems), MainSection);
      s := AppendItems(s, [FooterItem], FooterSection);
      snapshot := s;
      applyCount := applyCount + 1;
    }

    /**
     * `useAppropriateFooterRespectingForActualContentSize()`: the same decision
     * as OnbarodingView's, with no stabiliser.
     */
    method UseAppropriateFooterRespectingForActualContentSize(contentHeight: real, footerHeight: real, boundsHeight: real)
      requires Valid()
      modifies this`scrollEnabled, this`snapshot, this`applyCount, footerView`isHidden
      ensures Valid()
      ensures State() == Decide(old(State()), contentHeight, footerHeight, boundsHeight, 0.0)
      ensures snapshot == ReplaceSection(old(snapshot), FooterSection, FooterRows())
    {
      var actualContentHeight := contentHeight;
      var currentRows := FooterRows();
      if |currentRows| == 0 {
        actualContentHeight := actualContentHeight + footerHeight;
      }

      if actualContentHeight >= boundsHeight {
        footerView.isHidden := true;
        if |currentRows| == 0 {
          currentRows := currentRows + [FooterItem];
        }
        scrollEnabled := true;
      } else {
        footerView.isHidden := false;
        if |currentRows| > 0 {
          currentRows := Delete(currentRows, FooterItem);
        }
        scrollEnabled := false;
      }

      if currentRows != FooterRows() {
        snapshot := ReplaceSection(snapshot, FooterSection, currentRows);
        applyCount := applyCount + 1;
      }
    }

    /** A tap on the pinned footer's button calls `onCommit` exactly once. */
    method TapPinnedButton() returns (events: seq<Event>)
      requires Valid()
      ensures events == TapEvents(footerView.button.handlers, footerView.action, None)
      ensures events == [CommitCalled]
    {
      events := footerView.TapButton(None);
      assert footerView.button.handlers[..0] == [];
    }

    /**
     * The feature-cell registration: the image is tinted with the item's
     * colour when it has one and otherwise with the accent colour (which may
     * be nil), and rows are spaced by a fixed 50.
     */
    method ConfigureFeatureCell(cell: FeatureView, row: Item)
      modifies cell`titleText, cell`descriptionText, cell`image, cell`imageTintColor
      modifies cell`imageWidthConstant, cell`imageHeightConstant, cell`bottomConstant, cell`spacing
      ensures !row.Onboarding? ==> unchanged(cell)
      ensures row.Onboarding? ==>
        && cell.titleText == Some(row.feature.title) && cell.descriptionText == Some(row.feature.description)
        && cell.image == Some(row.feature.image)
        && cell.imageTintColor == (if row.feature.imageColor.Some? then row.feature.imageColor else accentColor)
        && cell.ImageSize() == row.feature.imageSize
        && cell.SpaceBetweenItem() == 50.0
        && cell.spacing == row.feature.spacingBetweenImageAndContentView
    {
      if row.Onboarding? {
        var item := row.feature;
        cell.titleText, cell.descriptionText := Some(item.title), Some(item.description);
        cell.image := Some(item.image);
        cell.imageTintColor := if item.imageColor.Some? then item.imageColor else accentColor;
        cell.SetImageSize(item.imageSize);
        cell.SetSpaceBetweenItem(50.0);
        cell.spacing := item.spacingBetweenImageAndContentView;
      }
    }

    /**
     * The footer-cell registration: the cell's footer gets the footer text,
     * the button title, the accent colour or else system blue, and one more
     * handler calling `onCommit`.
     */
    method ConfigureFooterCell(cell: FooterCell)
      modifies cell.GetTextView()`attributedText, cell.GetButton()
      ensures cell.GetTextView().attributedText == footerAttributedString
      ensures cell.GetButton().title == Some(buttonTitle)
      ensures accentColor.Some? ==> cell.GetButton().backgroundColor == accentColor
      ensures accentColor.None? ==> cell.GetButton().backgroundColor == Some(SystemBlue)
      ensures cell.GetButton().handlers == old(cell.GetButton().handlers) + [CallOnCommit]
    {
      var textView := cell.GetTextView();
      textView.attributedText := footerAttributedString;
      var button := cell.GetButton();
      button.SetTitle(Some(buttonTitle));
      button.backgroundColor := Some(accentColor.GetOr(SystemBlue));
      button.AddAction(CallOnCommit);
    }
  }
}
