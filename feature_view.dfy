/**
 * `FeatureView`: one feature row, an image beside (or above) a title and a
 * description in a stack view. Cells.swift carries a second, textually
 * identical copy of this class (its bottom constraint only has a lower layout
 * priority), so this one class models both.
 */
module FeatureViews {
  import opened Wrappers
  import opened UIValues
  import opened FeatureItems

  class FeatureView {
    var item: Option<OnboadingFeatureItem>
    var titleText: Option<string>
    var descriptionText: Option<string>
    var image: Option<Image>
    var imageTintColor: Option<Color>
    /** `containerStack.axis`, `.alignment` and `.spacing` */
    var axis: Axis
    var alignment: Alignment
    var spacing: real
    /** `bottomConstraint.constant`, which holds the item spacing negated */
    var bottomConstant: real
    var imageWidthConstant: real
    var imageHeightConstant: real

    /** `init(frame:)`: horizontal, centred, spacing 15, a 50x50 image, no item. */
    constructor ()
      ensures item == None && titleText == None && descriptionText == None
      ensures image == None && imageTintColor == None
      ensures axis == Horizontal && alignment == Center && spacing == 15.0
      ensures ImageSize() == Size(50.0, 50.0) && SpaceBetweenItem() == 0.0
    {
      item := None;
      titleText, descriptionText := None, None;
      image, imageTintColor := None, None;
      axis, alignment, spacing := Horizontal, Center, 15.0;
      bottomConstant := 0.0;
      imageWidthConstant, imageHeightConstant := 50.0, 50.0;
    }

    /** `spaceBetweenItem` getter */
    function SpaceBetweenItem(): real
      reads this`bottomConstant
    {
      bottomConstant * -1.0
    }

    /** `spaceBetweenItem` setter: stores the value negated, so the getter returns it. */
    method SetSpaceBetweenItem(v: real)
      modifies this`bottomConstant
      ensures bottomConstant == -v
      ensures SpaceBetweenItem() == v
    {
      bottomConstant := v * -1.0;
    }

    /** `imageSize` getter */
    function ImageSize(): Size
      reads this`imageWidthConstant, this`imageHeightConstant
    {
      Size(imageWidthConstant, imageHeightConstant)
    }

    /** `imageSize` setter: writes both constraint constants, so the getter returns the size set. */
    method SetImageSize(s: Size)
      modifies this`imageWidthConstant, this`imageHeightConstant
      ensures imageWidthConstant == s.width && imageHeightConstant == s.height
      ensures ImageSize() == s
    {
      imageWidthConstant := s.width;
      imageHeightConstant := s.height;
    }

    /**
     * Assigning `item`. Its `didSet` copies the item's texts, image, colour,
     * image size and spacing; a nil item clears the texts and falls back to a
     * 30x30 image and a spacing of 8. Axis, alignment and item spacing stay.
     */
    method SetItem(x: Option<OnboadingFeatureItem>)
      modifies this`item, this`titleText, this`descriptionText, this`image, this`imageTintColor
      modifies this`imageWidthConstant, this`imageHeightConstant, this`spacing
      ensures item == x
      ensures x.Some? ==> titleText == Some(x.value.title) && descriptionText == Some(x.value.description)
      ensures x.Some? ==> image == Some(x.value.image) && imageTintColor == x.value.imageColor
      ensures x.Some? ==> ImageSize() == x.value.imageSize
      ensures x.Some? ==> spacing == x.value.spacingBetweenImageAndContentView
      ensures x.None? ==> titleText == None && descriptionText == None && image == None && imageTintColor == None
      ensures x.None? ==> ImageSize() == Size(30.0, 30.0) && spacing == 8.0
    {
      item := x;
      if x.Some? {
        titleText, descriptionText := Some(x.value.title), Some(x.value.description);
        image, imageTintColor := Some(x.value.image), x.value.imageColor;
        SetImageSize(x.value.imageSize);
        spacing := x.value.spacingBetweenImageAndContentView;
      } else {
        titleText, descriptionText := None, None;
        image, imageTintColor := None, None;
        SetImageSize(Size(30.0, 30.0));
        spacing := 8.0;
      }
    }

    /**
     * `traitCollectionDidChange(_:)`: accessibility text sizes stack the image
     * above the text, leading-aligned; smaller sizes put it beside, centred.
     */
    method TraitCollectionDidChange(category: ContentSizeCategory)
      modifies this`axis, this`alignment
      ensures AtLeastAccessibilityMedium(category) ==> axis == Vertical && alignment == Leading
      ensures !AtLeastAccessibilityMedium(category) ==> axis == Horizontal && alignment == Center
    {
      if AtLeastAccessibilityMedium(category) {
        axis, alignment := Vertical, Leading;
      } else {
        axis, alignment := Horizontal, Center;
      }
    }
  }
}
