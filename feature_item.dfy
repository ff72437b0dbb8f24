/**
 * `OnboadingFeatureItem` (the spelling is the source's): an immutable record
 * with defaulted initialiser arguments and synthesized `Equatable`/`Hashable`.
 */
module FeatureItems {
  import opened Wrappers
  import opened UIValues
  import opened Hashing

  /** Fields in declaration order, which is also the synthesized hashing order. */
  datatype OnboadingFeatureItem = OnboadingFeatureItem(
    image: Image,
    imageColor: Option<Color>,
    imageSize: Size,
    spacingBetweenImageAndContentView: real,
    title: string,
    description: string)

  const DefaultImageSize: Size := Size(40.0, 35.0)
  const DefaultSpacing: real := 15.0

  /** `init(title:description:image:imageColor:imageSize:spacingBetweenImageAndContentView:)` */
  function Make(title: string, description: string, image: Image,
                imageColor: Option<Color> := None, imageSize: Size := DefaultImageSize,
                spacingBetweenImageAndContentView: real := DefaultSpacing): (item: OnboadingFeatureItem)
    ensures item.title == title && item.description == description && item.image == image
    ensures item.imageColor == imageColor && item.imageSize == imageSize
    ensures item.spacingBetweenImageAndContentView == spacingBetweenImageAndContentView
  {
    OnboadingFeatureItem(image, imageColor, imageSize, spacingBetweenImageAndContentView, title, description)
  }

  /** Omitting the defaulted arguments gives no colour, a 40x35 image and a spacing of 15. */
  lemma MakeDefaults(title: string, description: string, image: Image)
    ensures Make(title, description, image).imageColor == None
    ensures Make(title, description, image).imageSize == Size(40.0, 35.0)
    ensures Make(title, description, image).spacingBetweenImageAndContentView == 15.0
    ensures Make(title, description, image) == Make(title, description, image, None, Size(40.0, 35.0), 15.0)
  {
  }

  /** The synthesized `==`: all six stored properties compared pairwise. */
  function Equal(a: OnboadingFeatureItem, b: OnboadingFeatureItem): (r: bool)
    ensures r <==> a == b
  {
    && a.image == b.image
    && a.imageColor == b.imageColor
    && a.imageSize.width == b.imageSize.width
    && a.imageSize.height == b.imageSize.height
    && a.spacingBetweenImageAndContentView == b.spacingBetweenImageAndContentView
    && a.title == b.title
    && a.description == b.description
  }

  /** The synthesized `hash(into:)`: every stored property in declaration order, the size through `CombineSize`. */
  function HashInto(hasher: Hasher, item: OnboadingFeatureItem): (r: Hasher)
    ensures |r| == |hasher| + 7 && r[..|hasher|] == hasher
  {
    var h := hasher + [ImageToken(item.image), OptionalColorToken(item.imageColor)];
    var h := CombineSize(h, item.imageSize);
    h + [RealToken(item.spacingBetweenImageAndContentView), StringToken(item.title), StringToken(item.description)]
  }

  /** Hashing loses nothing: two items feed the same stream exactly when they are equal. */
  lemma HashIntoDeterminesItem(hasher: Hasher, a: OnboadingFeatureItem, b: OnboadingFeatureItem)
    ensures HashInto(hasher, a) == HashInto(hasher, b) <==> a == b
  {
    if HashInto(hasher, a) == HashInto(hasher, b) {
      var n := |hasher|;
      var ha, hb := HashInto(hasher, a), HashInto(hasher, b);
      assert ha[n] == hb[n] && ha[n + 1] == hb[n + 1] && ha[n + 2] == hb[n + 2];
      assert ha[n + 3] == hb[n + 3] && ha[n + 4] == hb[n + 4];
      assert ha[n + 5] == hb[n + 5] && ha[n + 6] == hb[n + 6];
    }
  }

  /** `id`, which is `hashValue`: the seeded finalisation of a fresh hasher fed with the item. */
  function Id(item: OnboadingFeatureItem, finalize: Finalizer): int {
    finalize(HashInto([], item))
  }

  /** Items that compare equal have equal `id`, whatever the process seed. */
  lemma EqualItemsHaveEqualId(a: OnboadingFeatureItem, b: OnboadingFeatureItem, finalize: Finalizer)
    requires Equal(a, b)
    ensures Id(a, finalize) == Id(b, finalize)
  {
  }
}
