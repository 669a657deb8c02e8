/**
 * The account's `profiles` row as both the edge function and the client read it,
 * and the `||` fallbacks both sides apply to its nullable columns.
 */
module Profiles {
  import opened Common

  /** The `subscription_tier` enumeration. */
  datatype Tier = Free | Pro | Studio

  /** The subscription columns of a `profiles` row; each one may be `null` in the store. */
  datatype ProfileRow = ProfileRow(
    tier: Option<Tier>,
    chapterCredits: Option<int>,
    imageCredits: Option<int>,
    creditsUsed: Option<int>,
    imagesUsed: Option<int>)

  const DefaultChapterCredits := 5
  const DefaultImageCredits := 30

  /** `value || fallback` on a nullable number: both `null` and `0` are falsy. */
  function OrElse(value: Option<int>, fallback: int): (r: int)
    ensures r == fallback || (value == Some(r) && r != 0)
    ensures value.Some? && value.value != 0 ==> r == value.value
  {
    if value.Some? && value.value != 0 then value.value else fallback
  }

  /** `credits_used_this_month || 0`. */
  function ChaptersUsed(p: ProfileRow): (r: int)
    ensures p.creditsUsed.Some? ==> r == p.creditsUsed.value
    ensures p.creditsUsed.None? ==> r == 0
  {
    OrElse(p.creditsUsed, 0)
  }

  /** `monthly_chapter_credits || 5`: a stored quota of zero reads as the default of five. */
  function ChapterQuota(p: ProfileRow): (r: int)
    ensures r != 0
    ensures p.chapterCredits.Some? && p.chapterCredits.value != 0 ==> r == p.chapterCredits.value
    ensures p.chapterCredits.None? || p.chapterCredits == Some(0) ==> r == DefaultChapterCredits
  {
    OrElse(p.chapterCredits, DefaultChapterCredits)
  }
}
