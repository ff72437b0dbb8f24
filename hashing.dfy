/**
 * Swift's `Hasher`, modelled by what is fed into it. `hash(into:)` appends
 * tokens in `combine` order; `hashValue` (and so every `id` the widget derives
 * from it) is a per-process seeded finalisation of that token stream, which the
 * model takes as a parameter.
 */
module Hashing {
  import opened Wrappers
  import opened UIValues

  datatype HashToken =
    | Discriminator(index: nat)
    | RealToken(x: real)
    | StringToken(s: string)
    | ImageToken(image: Image)
    | OptionalColorToken(color: Option<Color>)
    | UrlToken(url: Url)

  /** The stream of values combined so far. */
  type Hasher = seq<HashToken>

  /** The seeded finalisation Swift applies to a hasher to obtain `hashValue`. */
  type Finalizer = Hasher -> int

  /** `hash(into:)` of the `CGSize` extension: combines the width, then the height. */
  function CombineSize(hasher: Hasher, size: Size): (r: Hasher)
    ensures |r| == |hasher| + 2 && r[..|hasher|] == hasher
  {
    hasher + [RealToken(size.width), RealToken(size.height)]
  }

  /** Feeding a size determines the size: equal sizes, and only equal sizes, feed equal streams. */
  lemma CombineSizeDeterminesSize(hasher: Hasher, a: Size, b: Size)
    ensures CombineSize(hasher, a) == CombineSize(hasher, b) <==> a == b
  {
  }

  /** Width is combined before height: swapping them feeds a different stream unless they are equal. */
  lemma CombineSizeIsOrdered(hasher: Hasher, w: real, h: real)
    ensures CombineSize(hasher, Size(w, h))[|hasher|] == RealToken(w)
    ensures CombineSize(hasher, Size(w, h)) == CombineSize(hasher, Size(h, w)) <==> w == h
  {
  }
}
