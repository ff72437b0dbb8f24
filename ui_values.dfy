/**
 * The UIKit values the onboarding widget passes around but never looks into:
 * colours, images, attributed strings, URLs and text-view delegates are opaque
 * tokens compared only for equality. Sizes are exact reals (`CGFloat` without
 * rounding). Content-size categories carry UIKit's order.
 */
module UIValues {

  /** A `UIColor`; only `.systemBlue` is ever named by the widget itself. */
  datatype Color = SystemBlue | Custom(name: string)

  /** A `UIImage`. */
  datatype Image = Image(name: string)

  /** An `NSAttributedString`. */
  datatype AttributedText = AttributedText(text: string)

  /** A `URL`. */
  datatype Url = Url(absoluteString: string)

  /** The identity of a `UITextViewDelegate` object. */
  datatype DelegateRef = DelegateRef(id: nat)

  /** A `CGSize`. */
  datatype Size = Size(width: real, height: real)

  /** `UIStackView.Axis` */
  datatype Axis = Horizontal | Vertical

  /** The two `UIStackView.Alignment` values the widget uses. */
  datatype Alignment = Center | Leading

  /** `UIContentSizeCategory`, smallest first. */
  datatype ContentSizeCategory =
    | ExtraSmall | Small | Medium | Large | ExtraLarge | ExtraExtraLarge | ExtraExtraExtraLarge
    | AccessibilityMedium | AccessibilityLarge | AccessibilityExtraLarge
    | AccessibilityExtraExtraLarge | AccessibilityExtraExtraExtraLarge

  /** Position of a category in UIKit's order; `<` and `>=` on categories compare ranks. */
  function Rank(c: ContentSizeCategory): nat {
    match c
    case ExtraSmall => 0
    case Small => 1
    case Medium => 2
    case Large => 3
    case ExtraLarge => 4
    case ExtraExtraLarge => 5
    case ExtraExtraExtraLarge => 6
    case AccessibilityMedium => 7
    case AccessibilityLarge => 8
    case AccessibilityExtraLarge => 9
    case AccessibilityExtraExtraLarge => 10
    case AccessibilityExtraExtraExtraLarge => 11
  }

  /** `category >= .accessibilityMedium` */
  predicate AtLeastAccessibilityMedium(c: ContentSizeCategory) {
    Rank(c) >= Rank(AccessibilityMedium)
  }

  /** The categories at or above the threshold are exactly the five accessibility sizes. */
  lemma AccessibilityThreshold(c: ContentSizeCategory)
    ensures AtLeastAccessibilityMedium(c) <==>
      c in {AccessibilityMedium, AccessibilityLarge, AccessibilityExtraLarge,
            AccessibilityExtraExtraLarge, AccessibilityExtraExtraExtraLarge}
  {
  }
}
