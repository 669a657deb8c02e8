/**
 * The client's subscription hook: a snapshot of the account's plan and usage,
 * loaded once from the `profiles` row, and the feature and credit checks the
 * screens ask of it.
 */
module Subscription {
  import opened Common
  import opened Profiles
  import opened GenerateStory

  /** What the hook holds; the numbers are the `||`-defaulted columns. */
  datatype Snapshot = Snapshot(
    tier: Tier,
    chapterCredits: int,
    imageCredits: int,
    creditsUsed: int,
    imagesUsed: int,
    loading: bool)

  /** The snapshot before the first fetch completes. */
  const Initial := Snapshot(Free, DefaultChapterCredits, DefaultImageCredits, 0, 0, true)

  /** `monthly_image_credits || 30`. */
  function ImageQuota(p: ProfileRow): (r: int)
    ensures r != 0
    ensures p.imageCredits.Some? && p.imageCredits.value != 0 ==> r == p.imageCredits.value
    ensures p.imageCredits.None? || p.imageCredits == Some(0) ==> r == DefaultImageCredits
  {
    OrElse(p.imageCredits, DefaultImageCredits)
  }

  /** `images_used_this_month || 0`. */
  function ImagesUsed(p: ProfileRow): (r: int)
    ensures p.imagesUsed.Some? ==> r == p.imagesUsed.value
    ensures p.imagesUsed.None? ==> r == 0
  {
    OrElse(p.imagesUsed, 0)
  }

  /** The snapshot a fetched row produces: every nullable column falls back with `||`. */
  function FromProfile(p: ProfileRow): (s: Snapshot)
    ensures !s.loading
    ensures s.tier == (if p.tier.Some? then p.tier.value else Free)
    ensures s.chapterCredits != 0 && s.imageCredits != 0
    ensures p.chapterCredits.None? || p.chapterCredits == Some(0) ==> s.chapterCredits == DefaultChapterCredits
    ensures p.imageCredits.None? || p.imageCredits == Some(0) ==> s.imageCredits == DefaultImageCredits
    ensures p.creditsUsed.None? ==> s.creditsUsed == 0
    ensures p.imagesUsed.None? ==> s.imagesUsed == 0
    ensures p.chapterCredits.Some? && p.chapterCredits.value != 0 ==> s.chapterCredits == p.chapterCredits.value
    ensures p.imageCredits.Some? && p.imageCredits.value != 0 ==> s.imageCredits == p.imageCredits.value
    ensures p.creditsUsed.Some? ==> s.creditsUsed == p.creditsUsed.value
    ensures p.imagesUsed.Some? ==> s.imagesUsed == p.imagesUsed.value
    ensures s.chapterCredits == ChapterQuota(p) && s.creditsUsed == ChaptersUsed(p)
    ensures s.imageCredits == ImageQuota(p) && s.imagesUsed == ImagesUsed(p)
  {
    Snapshot(
      if p.tier.Some? then p.tier.value else Free,
      ChapterQuota(p), ImageQuota(p), ChaptersUsed(p), ImagesUsed(p),
      false)
  }

  /** The answer of the `profiles` read: an error, no row without an error, or a row. */
  datatype ProfileReply = ReadFailed | NoRow | Found(row: ProfileRow)

  datatype Feature = ProFeature | StudioFeature

  /** `hasFeature`: a Pro feature is open to Pro and Studio, a Studio feature to Studio only. */
  predicate HasFeature(s: Snapshot, f: Feature): (r: bool)
    ensures r ==> s.tier != Free
    ensures s.tier == Studio ==> r
    ensures f == ProFeature && s.tier == Pro ==> r
    ensures f == StudioFeature && s.tier == Pro ==> !r
  {
    match f
    case ProFeature => s.tier == Pro || s.tier == Studio
    case StudioFeature => s.tier == Studio
  }

  /**
   * `canGenerateChapter`: one more chapter still fits within the monthly allowance.
   * `ChapterCheckMatchesQuota` and `ServerRefusesWhenClientWould` relate it to a
   * stored profile and to the server's own check.
   */
  predicate CanGenerateChapter(s: Snapshot): (r: bool)
    ensures r <==> s.creditsUsed + 1 <= s.chapterCredits
  {
    s.creditsUsed < s.chapterCredits
  }

  /**
   * `canGenerateImage`: one more image still fits within the monthly allowance.
   * `ImageCheckMatchesQuota` relates it to a stored profile.
   */
  predicate CanGenerateImage(s: Snapshot): (r: bool)
    ensures r <==> s.imagesUsed + 1 <= s.imageCredits
  {
    s.imagesUsed < s.imageCredits
  }

  class SubscriptionHook {
    var snapshot: Snapshot

    constructor ()
      ensures snapshot == Initial
    {
      snapshot := Initial;
    }

    /**
     * `fetchSubscription`: a row replaces the snapshot wholesale; no session or
     * a failed read only ends loading; a read that returns neither leaves the
     * snapshot as it was.
     */
    method Fetch(signedIn: bool, reply: ProfileReply)
      modifies this
      ensures !signedIn || reply.ReadFailed? ==> snapshot == old(snapshot).(loading := false)
      ensures signedIn && reply.Found? ==> snapshot == FromProfile(reply.row)
      ensures signedIn && reply.NoRow? ==> snapshot == old(snapshot)
    {
      if !signedIn {
        snapshot := snapshot.(loading := false);
        return;
      }
      match reply
      case ReadFailed =>
        snapshot := snapshot.(loading := false);
      case NoRow =>
      case Found(row) =>
        snapshot := FromProfile(row);
    }
  }

  // ------------------------------------------------------------ properties

  /** Whoever holds the Studio feature holds the Pro one; only the free plan holds neither. */
  lemma FeatureLadder(s: Snapshot)
    ensures HasFeature(s, StudioFeature) ==> HasFeature(s, ProFeature)
    ensures HasFeature(s, ProFeature) <==> s.tier != Free
    ensures HasFeature(s, StudioFeature) <==> s.tier != Free && s.tier != Pro
  {
  }

  /** A missing tier reads as the free plan, which opens no paid feature. */
  lemma MissingTierIsFree(p: ProfileRow)
    requires p.tier.None?
    ensures !HasFeature(FromProfile(p), ProFeature) && !HasFeature(FromProfile(p), StudioFeature)
  {
  }

  /** The client's chapter check on a fetched row is exactly the server's quota rule on the same row. */
  lemma ChapterCheckMatchesQuota(p: ProfileRow)
    ensures CanGenerateChapter(FromProfile(p)) <==> ChaptersUsed(p) < ChapterQuota(p)
    ensures p.chapterCredits == Some(0) ==>
      (CanGenerateChapter(FromProfile(p)) <==> ChaptersUsed(p) < DefaultChapterCredits)
  {
  }

  /**
   * For a signed-in caller with a readable profile and a valid body, the
   * generation endpoint refuses with the credit error exactly when the client's
   * snapshot of the same row says no chapter can be generated.
   */
  lemma ServerRefusesWhenClientWould(profiles: map<UserId, ProfileRow>, owners: map<ProjectId, UserId>,
                                     user: UserId, request: Request, env: Env)
    requires user in profiles && !env.profileReadFails
    ensures AfterValidation(profiles, owners, user, request, env).CreditsExhausted?
            <==> !CanGenerateChapter(FromProfile(profiles[user]))
  {
  }

  /** The image check on a fetched row reads a stored zero quota as thirty. */
  lemma ImageCheckMatchesQuota(p: ProfileRow)
    ensures CanGenerateImage(FromProfile(p)) <==> ImagesUsed(p) < ImageQuota(p)
    ensures p.imageCredits == Some(0) ==>
      (CanGenerateImage(FromProfile(p)) <==> ImagesUsed(p) < DefaultImageCredits)
  {
  }

  /** The initial snapshot is a free plan with its whole allowance open. */
  lemma InitialSnapshotIsOpenFreePlan()
    ensures Initial.loading && Initial.tier == Free
    ensures CanGenerateChapter(Initial) && CanGenerateImage(Initial)
    ensures !HasFeature(Initial, ProFeature)
  {
  }
}
