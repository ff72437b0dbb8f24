/**
 * The footer-placement decision both onboarding views run on every layout
 * pass, as a function of the view's footer state and three measurements: the
 * list's content height, the pinned footer view's height and the view's own
 * height. When the measured height reaches the view's height the pinned footer
 * view is hidden, the footer becomes the list's last row and the list scrolls;
 * otherwise the pinned footer view shows, the footer row goes and the list
 * stops scrolling. The section snapshot is applied only when its rows changed.
 *
 * The two views differ by a stabiliser added to the measured height:
 * OnbarodingView adds the footer height, SinglePageOnbarodingUIKitView adds 0.
 */
module FooterPlacement {
  import opened Snapshots

  /** The part of a view the decision reads and writes. */
  datatype FooterState = FooterState(
    footerViewHidden: bool,
    scrollEnabled: bool,
    footerSection: seq<Item>,
    applyCount: nat)

  /** The footer section as the views keep it: empty, or the single footer row. */
  predicate WellFormedFooterSection(rows: seq<Item>) {
    rows == [] || rows == [FooterItem]
  }

  /**
   * The height the decision compares with the view's height: the content
   * height, plus the footer height when the footer row is not in the list,
   * plus the stabiliser.
   */
  function MeasuredHeight(contentHeight: real, footerHeight: real, stabilizer: real, footerSection: seq<Item>): real {
    var height := if |footerSection| == 0 then contentHeight + footerHeight else contentHeight;
    height + stabilizer
  }

  /** The section snapshot after the in-place edit: append the row if it is wanted and absent, delete it if unwanted and present. */
  function ReconcileFooterSection(current: seq<Item>, rowInList: bool): (r: seq<Item>)
    ensures rowInList && current == [] ==> r == [FooterItem]
    ensures rowInList && current != [] ==> r == current
    ensures !rowInList ==> FooterItem !in r && forall y :: y in r <==> y in current && y != FooterItem
    ensures |r| > |current| ==> current == [] && r == [FooterItem]
    ensures !rowInList && r != current ==> current != []
  {
    if rowInList then
      if |current| == 0 then current + [FooterItem] else current
    else
      if |current| > 0 then Delete(current, FooterItem) else current
  }

  /** One run of `useAppropriateFooterRespectingForActualContentSize()`. */
  function Decide(st: FooterState, contentHeight: real, footerHeight: real, boundsHeight: real, stabilizer: real): (r: FooterState)
    ensures r.footerViewHidden <==> MeasuredHeight(contentHeight, footerHeight, stabilizer, st.footerSection) >= boundsHeight
    ensures r.scrollEnabled == r.footerViewHidden
    ensures WellFormedFooterSection(st.footerSection) ==>
      WellFormedFooterSection(r.footerSection) && (r.footerSection == [FooterItem] <==> r.footerViewHidden)
    ensures r.applyCount == if r.footerSection == st.footerSection then st.applyCount else st.applyCount + 1
  {
    var rowInList := MeasuredHeight(contentHeight, footerHeight, stabilizer, st.footerSection) >= boundsHeight;
    var section := ReconcileFooterSection(st.footerSection, rowInList);
    FooterState(rowInList, rowInList, section,
                if section != st.footerSection then st.applyCount + 1 else st.applyCount)
  }

  /**
   * Once the footer is where the measurement wants it, the decision changes
   * nothing: when a re-run measures on the same side of the view's height as
   * the run before, it applies no snapshot and leaves every flag as it was.
   */
  lemma SettledDecisionChangesNothing(st: FooterState, c0: real, c1: real, footerHeight: real, boundsHeight: real, stabilizer: real)
    requires WellFormedFooterSection(st.footerSection)
    requires var s1 := Decide(st, c0, footerHeight, boundsHeight, stabilizer);
      (MeasuredHeight(c1, footerHeight, stabilizer, s1.footerSection) >= boundsHeight) ==
      (MeasuredHeight(c0, footerHeight, stabilizer, st.footerSection) >= boundsHeight)
    ensures var s1 := Decide(st, c0, footerHeight, boundsHeight, stabilizer);
      Decide(s1, c1, footerHeight, boundsHeight, stabilizer) == s1
  {
  }

  /** The list's content height when the inline footer row, if present, is `rowHeight` tall. */
  function ContentHeight(baseHeight: real, rowHeight: real, footerSection: seq<Item>): real {
    if |footerSection| == 0 then baseHeight else baseHeight + rowHeight
  }

  /**
   * Convergence: if the inline footer row is at least as tall as the pinned
   * footer view, laying out again right after a decision (with the content
   * height the new list really has) never flips it, so the
   * `layoutSubviews` recursion stops after one more pass.
   */
  lemma RerunNeverFlips(st: FooterState, baseHeight: real, rowHeight: real, footerHeight: real,
                        boundsHeight: real, stabilizer: real)
    requires WellFormedFooterSection(st.footerSection)
    requires rowHeight >= footerHeight
    ensures var s1 := Decide(st, ContentHeight(baseHeight, rowHeight, st.footerSection), footerHeight, boundsHeight, stabilizer);
      Decide(s1, ContentHeight(baseHeight, rowHeight, s1.footerSection), footerHeight, boundsHeight, stabilizer) == s1
  {
  }

  /**
   * The bound of `RerunNeverFlips` is tight: with an inline row shorter than
   * the pinned footer view there is a view height at which every pass flips
   * the decision and applies a snapshot, with or without a stabiliser.
   */
  lemma ShortRowOscillates(st: FooterState, baseHeight: real, rowHeight: real, footerHeight: real, stabilizer: real)
    requires st.footerSection == []
    requires rowHeight < footerHeight
    ensures var b := baseHeight + footerHeight + stabilizer;
      var s1 := Decide(st, ContentHeight(baseHeight, rowHeight, st.footerSection), footerHeight, b, stabilizer);
      var s2 := Decide(s1, ContentHeight(baseHeight, rowHeight, s1.footerSection), footerHeight, b, stabilizer);
      && s1.footerSection == [FooterItem] && s1.footerViewHidden
      && s2.footerSection == [] && !s2.footerViewHidden
      && s2.applyCount == st.applyCount + 2
  {
  }

  /**
   * Holding the content height fixed is not enough for a no-op re-run: when
   * the measurement lands within one footer height of the view's height, a
   * second call with literally the same three inputs undoes the first one.
   * (On screen the content height changes with the footer row; see `RerunNeverFlips`.)
   */
  lemma FixedContentHeightCanFlip(st: FooterState, contentHeight: real, footerHeight: real, boundsHeight: real, stabilizer: real)
    requires st.footerSection == [FooterItem]
    requires contentHeight + stabilizer < boundsHeight <= contentHeight + footerHeight + stabilizer
    ensures var s1 := Decide(st, contentHeight, footerHeight, boundsHeight, stabilizer);
      var s2 := Decide(s1, contentHeight, footerHeight, boundsHeight, stabilizer);
      && s1.footerSection == [] && s2.footerSection == [FooterItem]
      && s2.applyCount == st.applyCount + 2
  {
  }

  /**
   * The stabiliser is added in both states, so it only moves the threshold:
   * OnbarodingView (stabiliser = footer height) decides at view height `b`
   * exactly as SinglePageOnbarodingUIKitView (no stabiliser) decides at `b - s`.
   */
  lemma StabilizerShiftsThreshold(st: FooterState, contentHeight: real, footerHeight: real, boundsHeight: real, stabilizer: real)
    ensures Decide(st, contentHeight, footerHeight, boundsHeight, stabilizer)
         == Decide(st, contentHeight, footerHeight, boundsHeight - stabilizer, 0.0)
  {
  }
}
