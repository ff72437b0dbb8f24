# SinglePageOnboarding, modelled in Dafny

SinglePageOnboarding is a UIKit widget that shows an app's "Welcome" or
"What's New" page. The page is a list with a title row, up to three feature
rows (an image beside a title and a description), and a footer made of some
footer text and a call-to-action button. The widget's one non-trivial behaviour
is where that footer goes, and it decides this again on every layout pass:

- If the content fits on screen, the footer is a pinned `FooterView` at the
  bottom of the view and the list does not scroll.
- If the content does not fit, the pinned view is hidden, the footer becomes
  the list's last row, and the list scrolls.

The model covers:

- the footer placement decision, in both versions of the view: `OnbarodingView`
  adds a stabiliser height and `SinglePageOnbarodingUIKitView` does not;
- the diffable-data-source snapshot, with its three sections (header, main,
  footer) of typed rows;
- the footer's button and its ever-growing list of tap handlers;
- `FeatureView`: its defaults, its accessors that round-trip through a
  constraint constant, and its layout rule for accessibility text sizes;
- `FooterCell`'s forwarding to its footer view;
- the controller: its item-count precondition, the nil-colour default, and when
  it re-runs the decision;
- the value types `OnboadingFeatureItem` and `OnboardingFooterContent`: their
  initialiser defaults, synthesized equality and hashing, and `id`.

Views are classes whose methods update their fields in place. The decision
itself is also a pure function, `FooterPlacement.Decide`, over the footer
state. Both views' methods are proved to match it, and the convergence
properties are lemmas about it. Heights and sizes are exact `real`s, since the
code only adds, negates and compares them.

How the footer placement works in the code:

- The measured height is the list's content height, plus the footer view's
  height when the footer row is absent, plus the stabiliser.
- When the measured height reaches the view's height, the pinned view is
  hidden and the row is put in the list.

Some descriptions of the widget state the reverse (pinned when the content
overflows). The model follows the code.

The layout-recursion comment at `OnbarodingView.swift:182-185` says the
recursion stops after one pass, and the decision applies a snapshot only when
the footer rows change. The lemmas show when that claim holds:

- It holds whenever the inline footer row is at least as tall as the pinned
  footer view (`RerunNeverFlips`).
- With a shorter row there is a view height at which every pass flips
  (`ShortRowOscillates`).
- A re-run with the content height held literally fixed can also flip
  (`FixedContentHeightCanFlip`).
- The stabiliser only moves the threshold, so it does not damp this
  (`StabilizerShiftsThreshold`).

Modelling choices:

- The files come from different stages of a refactor, and some of them do not
  fit together:
  - The UIKit view declares its items as `OnboadingItem`, yet reads an
    `imageSize` that only `OnboadingFeatureItem` has. The model uses
    `OnboadingFeatureItem`.
  - The controller assigns the view's `let footerAttributedString`. The model
    makes it a `var`.
  - The controller's `loadView()` calls a view initialiser that does not
    exist, so the model's `LoadView` takes the view as a parameter.
- The `FeatureView` class appears twice, in FeatureView.swift and Cells.swift,
  and the copies differ only in a layout priority. The one class
  `FeatureViews.FeatureView` models both.
- Each closure passed to `addAction` is a `Handler` tag. Its effect at tap time
  is the `Event` sequence that `Actions.TapEvents` gives.
- Hash finalisation is seeded per process and cannot be seen, so it is a
  function parameter (`Finalizer`).

## Model

| member | source | states |
|---|---|---|
| FooterPlacement.Decide | Sources/SinglePageOnboarding/OnbarodingView.swift:189-231 | the pinned footer view is hidden (and the list scrolls) exactly when content height, plus the footer height if the footer row is absent, plus the stabiliser, reaches the view's height; a well-formed footer section stays well-formed and holds the footer row exactly when the pinned view is hidden; the apply count grows by one exactly when the footer rows changed |
| FooterPlacement.ReconcileFooterSection | Sources/SinglePageOnboarding/OnbarodingView.swift:207-224 | the footer row is appended only to an empty section and deleted only from a non-empty one; a wanted row in an empty section gives exactly `[.footer]`; an unwanted row leaves every other row and no footer row |
| FooterPlacement.SettledDecisionChangesNothing | Sources/SinglePageOnboarding/OnbarodingView.swift:226-229 | a re-run whose measurement falls on the same side of the view height as the run before returns the same state: no apply and no flag change |
| FooterPlacement.RerunNeverFlips | Sources/SinglePageOnboarding/OnbarodingView.swift:182-197 | when the inline footer row is at least as tall as the pinned footer, re-deciding with the content height the new list has changes nothing, so the layout recursion stops |
| FooterPlacement.ShortRowOscillates | Sources/SinglePageOnboarding/SinglePageOnbarodingUIKitView.swift:157-195 | with an inline row shorter than the pinned footer there is a view height at which two passes flip the footer twice and apply twice |
| FooterPlacement.FixedContentHeightCanFlip | Sources/SinglePageOnboarding/OnbarodingView.swift:189-229 | two calls with the same three measurements can undo each other and apply twice when the measurement lands within one footer height of the view height |
| FooterPlacement.StabilizerShiftsThreshold | Sources/SinglePageOnboarding/OnbarodingView.swift:199-207 | adding a stabiliser `s` decides exactly as no stabiliser against a view height lowered by `s` |
| OnboardingView.OnbarodingView.constructor | Sources/SinglePageOnboarding/OnbarodingView.swift:62-92 | stores title and items, item spacing 30, a fresh shown footer view, and applies the initial snapshot once |
| OnboardingView.OnbarodingView.ApplyInitialData | Sources/SinglePageOnboarding/OnbarodingView.swift:170-177 | sections header, main, footer; the header holds `[.header]`, main holds one row per feature item in order, the footer holds `[.footer]`; one apply |
| OnboardingView.OnbarodingView.UseAppropriateFooterRespectingForActualContentSize | Sources/SinglePageOnboarding/OnbarodingView.swift:189-231 | the view's new footer state is `Decide` of the old one with stabiliser equal to the footer height; only the footer section of the snapshot changes |
| OnboardingView.OnbarodingView.SetAction | Sources/SinglePageOnboarding/OnbarodingView.swift:36-47 | the button gets the action's title (nil for no action) and this view's tint, and exactly one more forwarding handler |
| OnboardingView.OnbarodingView.TapPinnedButton | Sources/SinglePageOnboarding/OnbarodingView.swift:36-47 | a tap runs every registered handler in order; while the view's action is nil it calls nothing, otherwise it calls the action's handler with the action once per registered handler (one per assignment to `action`); the class invariant keeps the pinned footer's own action nil and every handler forwarding this view's action |
| OnboardingView.OnbarodingView.SetFooterAttributedString | Sources/SinglePageOnboarding/OnbarodingView.swift:50-54 | the footer text is stored and shown by the pinned footer's text view |
| OnboardingView.OnbarodingView.SetFooterTextViewDelegate | Sources/SinglePageOnboarding/OnbarodingView.swift:56-60 | the delegate is stored and handed to the pinned footer's text view |
| OnboardingView.OnbarodingView.ConfigureFeatureCell | Sources/SinglePageOnboarding/OnbarodingView.swift:124-134 | a feature row shows the item's texts, image, size and stack spacing, tints with the item's colour or else the view's tint, and spaces rows by `spaceBetweenEachFeatureItem`; any other row leaves every field of the cell unchanged |
| OnboardingView.OnbarodingView.ConfigureFooterCell | Sources/SinglePageOnboarding/OnbarodingView.swift:140-152 | the cell's footer gets the footer text, the delegate, the action's title, the tint and one more forwarding handler |
| UIKitView.SinglePageOnbarodingUIKitView.constructor | Sources/SinglePageOnboarding/SinglePageOnbarodingUIKitView.swift:55-66 | stores every argument; the pinned footer shows the footer text and button title, its button is the accent colour or else system blue and its one handler calls `onCommit`; applies the initial snapshot once |
| UIKitView.SinglePageOnbarodingUIKitView.ApplyInitialSnapshot | Sources/SinglePageOnboarding/SinglePageOnbarodingUIKitView.swift:146-151 | sections header, main, footer holding `[.header]`, the items in order, `[.footer]`; one apply |
| UIKitView.SinglePageOnbarodingUIKitView.UseAppropriateFooterRespectingForActualContentSize | Sources/SinglePageOnboarding/SinglePageOnbarodingUIKitView.swift:164-197 | the new footer state is `Decide` of the old one with no stabiliser; only the footer section of the snapshot changes |
| UIKitView.SinglePageOnbarodingUIKitView.TapPinnedButton | Sources/SinglePageOnboarding/SinglePageOnbarodingUIKitView.swift:139-144 | a tap on the pinned button calls `onCommit` exactly once: the class invariant keeps the button's handlers at the single commit handler registered during set-up |
| UIKitView.SinglePageOnbarodingUIKitView.ConfigureFeatureCell | Sources/SinglePageOnboarding/SinglePageOnbarodingUIKitView.swift:88-98 | a feature row tints with the item's colour when it has one and otherwise with the accent colour (possibly nil), and uses an item spacing of 50; any other row leaves every field of the cell unchanged |
| UIKitView.SinglePageOnbarodingUIKitView.ConfigureFooterCell | Sources/SinglePageOnboarding/SinglePageOnbarodingUIKitView.swift:104-111 | the footer cell's button is the accent colour when set and system blue otherwise, titled with the button title, with one more `onCommit` handler |
| Controller.SinglePageOnboardingController.Make | Sources/SinglePageOnboarding/SinglePageOnboardingController.swift:69-77 | construction succeeds exactly when there are at most three feature items, and then stores title, items and action unchanged |
| Controller.SinglePageOnboardingController.constructor | Sources/SinglePageOnboarding/SinglePageOnboardingController.swift:72-74 | title, items and action are stored unchanged; no view yet |
| Controller.SinglePageOnboardingController.LoadView | Sources/SinglePageOnboarding/SinglePageOnboardingController.swift:83-92 | the controller's view is the onboarding view |
| Controller.SinglePageOnboardingController.SetFooterAttributedString | Sources/SinglePageOnboarding/SinglePageOnboardingController.swift:49-53 | the value is stored; with a loaded view the same value is forwarded to it, and before `loadView()` the write through the implicitly unwrapped view traps |
| Controller.SinglePageOnboardingController.SetFooterTextViewDelegate | Sources/SinglePageOnboarding/SinglePageOnboardingController.swift:55-59 | the delegate is stored and nothing else changes |
| Controller.SinglePageOnboardingController.SetTintColor | Sources/SinglePageOnboarding/SinglePageOnboardingController.swift:61-67 | the colour is stored; a loaded view's tint becomes the colour, or system blue for nil, and before `loadView()` the write through the implicitly unwrapped view traps |
| Controller.SinglePageOnboardingController.TraitCollectionDidChange | Sources/SinglePageOnboarding/SinglePageOnboardingController.swift:94-100 | the footer decision re-runs exactly when the content-size category differs from the previous one, and otherwise the view's footer state and snapshot are unchanged; a re-run with no view loaded traps |
| FeatureViews.FeatureView.constructor | Sources/SinglePageOnboarding/FeatureView.swift:23-30 | axis horizontal, alignment center, spacing 15, a 50x50 image, no item |
| FeatureViews.FeatureView.SetItem | Sources/SinglePageOnboarding/FeatureView.swift:12-20 | a non-nil item's texts, image, colour, image size and spacing are copied; nil clears them and gives a 30x30 image and spacing 8 |
| FeatureViews.FeatureView.SetSpaceBetweenItem | Sources/SinglePageOnboarding/FeatureView.swift:62-70 | the value is stored negated in the bottom constraint and the getter reads it back unchanged |
| FeatureViews.FeatureView.SetImageSize | Sources/SinglePageOnboarding/FeatureView.swift:75-84 | both constraint constants are written and the getter returns the size set |
| FeatureViews.FeatureView.TraitCollectionDidChange | Sources/SinglePageOnboarding/Cells.swift:213-226 | at or above the accessibility-medium category the stack is vertical and leading; below it, horizontal and centred |
| UIValues.AccessibilityThreshold | Sources/SinglePageOnboarding/FeatureView.swift:143-149 | the categories at or above accessibility-medium are exactly the five accessibility sizes |
| Cells.FooterCell.constructor | Sources/SinglePageOnboarding/Cells.swift:48-51 | the cell wraps a fresh footer view with no action and no handlers |
| Cells.FooterCell.SetAction | Sources/SinglePageOnboarding/Cells.swift:52-60 | writing `action` through the cell writes the wrapped footer view's; reading it back gives the value set, and the text view and button are the same objects |
| FooterViews.FooterView.constructor | Sources/SinglePageOnboarding/FooterView.swift:26-57 | the text view is read-only, selectable and not scrolling; the button has no title, colour or handlers |
| FooterViews.FooterView.SetAction | Sources/SinglePageOnboarding/FooterView.swift:12-24 | the button gets the action's title and the tint colour; exactly one handler is appended and none removed |
| FooterViews.FooterView.TapButton | Sources/SinglePageOnboarding/FooterView.swift:16-22 | a tap gives the events of every registered handler in order, each reading the current action |
| Controls.Button.AddAction | Sources/SinglePageOnboarding/FooterView.swift:16-22 | the handler list grows by exactly the new handler at its end |
| Controls.Button.Tap | Sources/SinglePageOnboarding/FooterView.swift:16-22 | the events of a tap are `TapEvents` of the registered handlers |
| Actions.TapWithoutActionCallsNothing | Sources/SinglePageOnboarding/FooterView.swift:17-19 | while the actions the handlers forward are nil and none calls `onCommit`, a tap calls nothing |
| Actions.TapCallsActionOncePerHandler | Sources/SinglePageOnboarding/FooterView.swift:16-22 | when every handler forwards action `a`, a tap calls `a`'s handler with `a` once per handler and nothing else |
| Actions.TitleOf | Sources/SinglePageOnboarding/FooterView.swift:14 | the button title is present exactly when an action is, and then is the action's title |
| Snapshots.AppendSections | Sources/SinglePageOnboarding/OnbarodingView.swift:172 | the new sections follow the old ones, each empty; existing sections keep their rows |
| Snapshots.AppendAllSectionsToEmpty | Sources/SinglePageOnboarding/OnbarodingView.swift:171-172 | appending all sections to an empty snapshot gives header, main and footer in that order, each empty |
| Snapshots.AppendItems | Sources/SinglePageOnboarding/OnbarodingView.swift:173-175 | the rows go after the section's existing rows; other sections are unchanged |
| Snapshots.ReplaceSection | Sources/SinglePageOnboarding/OnbarodingView.swift:227-229 | one section gets the given rows; the others and the section order are unchanged |
| Snapshots.FeatureRows | Sources/SinglePageOnboarding/OnbarodingView.swift:174 | one feature row per item, at the same position |
| Snapshots.Delete | Sources/SinglePageOnboarding/OnbarodingView.swift:219-221 | removes exactly the given row and keeps every other row; the section shrinks when the row was present and comes back unchanged when it was not |
| FooterContents.TextValueOfEachCase | Sources/SinglePageOnboarding/OnboardingFooterContent.swift:15-23 | plain text shows its string; a link shows its text |
| FooterContents.TextValueIgnoresUrl | Sources/SinglePageOnboarding/OnboardingFooterContent.swift:20-21 | links with the same text show the same words whatever their URLs, although they are different values, and differ from plain text with those words |
| FooterContents.Equal | Sources/SinglePageOnboarding/OnboardingFooterContent.swift:26 | the synthesized case-and-fields comparison is exactly value equality |
| FooterContents.HashInto | Sources/SinglePageOnboarding/OnboardingFooterContent.swift:26 | hashing extends the hasher's stream and keeps what was fed before |
| FooterContents.HashIntoDeterminesContent | Sources/SinglePageOnboarding/OnboardingFooterContent.swift:26 | equal contents feed the same hash stream, which is what equal `id`s rest on; the converse holds for the token model only, where a URL token carries the whole URL |
| FooterContents.EqualContentsHaveEqualId | Sources/SinglePageOnboarding/OnboardingFooterContent.swift:28-32 | contents that compare equal have equal `id`, whatever the hash seed |
| FeatureItems.Make | Sources/SinglePageOnboarding/OnboardingFeatureItem.swift:31-38 | every argument is stored unchanged in its field |
| FeatureItems.MakeDefaults | Sources/SinglePageOnboarding/OnboardingFeatureItem.swift:31 | omitted arguments give no image colour, a 40x35 image and spacing 15 |
| FeatureItems.Equal | Sources/SinglePageOnboarding/OnboardingFeatureItem.swift:51 | the field-wise comparison of all six fields is exactly value equality |
| FeatureItems.HashInto | Sources/SinglePageOnboarding/OnboardingFeatureItem.swift:51 | hashing appends seven tokens and keeps what was fed before |
| FeatureItems.HashIntoDeterminesItem | Sources/SinglePageOnboarding/OnboardingFeatureItem.swift:42-51 | equal items feed the same hash stream, which is what equal `id`s rest on; the converse holds for the token model only, where image and colour tokens carry whole values |
| FeatureItems.EqualItemsHaveEqualId | Sources/SinglePageOnboarding/OnboardingFeatureItem.swift:53-57 | items that compare equal have equal `id`, whatever the hash seed |
| Hashing.CombineSize | Sources/SinglePageOnboarding/OnboardingFeatureItem.swift:42-49 | hashing a size appends two tokens and keeps what was fed before |
| Hashing.CombineSizeDeterminesSize | Sources/SinglePageOnboarding/OnboardingFeatureItem.swift:44-47 | two sizes feed the same stream exactly when they are equal |
| Hashing.CombineSizeIsOrdered | Sources/SinglePageOnboarding/OnboardingFeatureItem.swift:45-46 | the width is fed before the height, so swapping them changes the stream unless they are equal |

## Left out

- Auto Layout constraints, layout margins, fonts and `HeaderCell` (the title row's cell) are left out: they are declarative set-up with no logic beyond the constants modelled.
- The real measurement of content size and bounds, and the `layoutSubviews()` callback machinery, are left out. The three heights are parameters of the decision methods. The lemmas state what one more layout pass would do.
- SinglePageOnboardingView.swift (a SwiftUI layout and preview) and the sample app's ViewController.swift (persistence, URL opening, presentation) are not part of this model.
- OnboardingAction.swift is modelled only as a value: a title and an opaque reference to its closure. What the closure does is outside the widget.
- OnboardingItem.swift is not part of this model. It is a plain record that `OnboadingFeatureItem` supersedes.
- `FeatureCell` and `OnboardingCell`, the cell classes the list registrations configure, are not among the sources. Their configuration is modelled on the `FeatureView` properties of the same names.
- UIKit traps on a snapshot with duplicate item identifiers, for example two equal feature items. That is not modelled: the snapshot accepts any rows.
- The `.unspecified` content-size category is left out. The model has the twelve concrete categories.
- The footer text view's link tapping and the delegate's callbacks are left out, because they are UIKit event delivery. Only the stored delegate is modelled.
- Swift's seeded hash finalisation is a parameter. Only what is fed to the hasher is modelled.
- `CGFloat` is exact `real`, so floating-point rounding is not modelled.
- The UIView tint inherited from a superview is not modelled. A view's tint starts as system blue and changes only by assignment.
- Controller.SinglePageOnboardingController.LoadView: takes the onboarding view as a parameter because the initialiser the controller calls does not exist on the view. It therefore says nothing about how that view is built.
- FeatureItems.Equal: Swift compares `String`s by Unicode canonical equivalence, so `"\u{E9}"` equals `"e\u{301}"` there. The model compares the title and description character by character and does not model that.
- FooterContents.Equal: does not model Unicode canonical equivalence of `String`s either (see `FeatureItems.Equal`).
- FeatureItems.HashIntoDeterminesItem: in Swift, `UIImage` and `UIColor` feed only their own integer hash to the hasher, so unequal items can feed the same stream. The "only if" half is a property of the token model, where a token carries the whole value. The half that `id` relies on, that equal items feed equal streams, holds as in the source.
- FooterContents.HashIntoDeterminesContent: in Swift, a `URL` feeds only its own integer hash, so its "only if" half is likewise a property of the token model. Equal contents feed equal streams, as in the source.
- OnboardingView.OnbarodingView.ConfigureFooterCell: does not promise to keep the view's class invariant, because the model does not state that a list cell's button is never the pinned footer's button; in the source each `FooterCell` owns its own footer view.
- Controller.SinglePageOnboardingController.constructor: requires at most three items. The trapping `precondition` is modelled by `Make`, which returns nothing for four or more.
