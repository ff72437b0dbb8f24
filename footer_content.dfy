/** `OnboardingFooterContent`: a run of footer text, plain or a link. */
module FooterContents {
  import opened UIValues
  import opened Hashing

  datatype OnboardingFooterContent = Text(value: string) | Link(text: string, url: Url)

  /** `textValue`: the words shown for the segment. */
  function TextValue(content: OnboardingFooterContent): string {
    match content
    case Text(value) => value
    case Link(value, _) => value
  }

  /** A plain segment shows its string and a link shows its text. */
  lemma TextValueOfEachCase(s: string, t: string, u: Url)
    ensures TextValue(Text(s)) == s && TextValue(Link(t, u)) == t
  {
  }

  /**
   * `textValue` forgets the link target: links with the same text show the
   * same words even when they are different values, and a link shows the
   * same words as the plain text it wraps.
   */
  lemma TextValueIgnoresUrl(t: string, u1: Url, u2: Url)
    ensures TextValue(Link(t, u1)) == TextValue(Link(t, u2)) == TextValue(Text(t))
    ensures u1 != u2 ==> Link(t, u1) != Link(t, u2)
    ensures Text(t) != Link(t, u1)
  {
  }

  /** The synthesized `==`: same case and pairwise equal associated values. */
  function Equal(a: OnboardingFooterContent, b: OnboardingFooterContent): (r: bool)
    ensures r <==> a == b
  {
    match (a, b)
    case (Text(x), Text(y)) => x == y
    case (Link(x, u), Link(y, v)) => x == y && u == v
    case _ => false
  }

  /** The synthesized `hash(into:)`: the case index, then each associated value. */
  function HashInto(hasher: Hasher, content: OnboardingFooterContent): (r: Hasher)
    ensures |r| > |hasher| && r[..|hasher|] == hasher
  {
    match content
    case Text(value) => hasher + [Discriminator(0), StringToken(value)]
    case Link(text, url) => hasher + [Discriminator(1), StringToken(text), UrlToken(url)]
  }

  /** Two contents feed the same stream exactly when they are equal. */
  lemma HashIntoDeterminesContent(hasher: Hasher, a: OnboardingFooterContent, b: OnboardingFooterContent)
    ensures HashInto(hasher, a) == HashInto(hasher, b) <==> a == b
  {
  }

  /** `id`, which is `hashValue`. */
  function Id(content: OnboardingFooterContent, finalize: Finalizer): int {
    finalize(HashInto([], content))
  }

  /** Equal contents have equal `id`. */
  lemma EqualContentsHaveEqualId(a: OnboardingFooterContent, b: OnboardingFooterContent, finalize: Finalizer)
    requires Equal(a, b)
    ensures Id(a, finalize) == Id(b, finalize)
  {
  }
}
