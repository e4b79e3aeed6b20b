/**
 * The photo gallery of src/app/photos/page.tsx: the three-way filter on the
 * verification flag and the counts above the grid. The same split is used
 * by the photo tab of the lead page (src/components/leads/lead-detail.tsx).
 *
 * `is_verified` may be `true`, `false` or `null`; only `true` counts as
 * verified, so an unreviewed photo is pending.
 */
module Photos {
  import opened Common

  datatype Photo = Photo(id: string, leadId: string, isVerified: Option<bool>)

  /** `p.is_verified` is truthy. */
  predicate Verified(p: Photo)
  {
    IsTrue(p.isVerified)
  }

  /** `!p.is_verified`: false and null alike. */
  predicate Pending(p: Photo)
  {
    !Verified(p)
  }

  /** The filter buttons of the gallery. */
  datatype PhotoFilter = All | PendingOnly | VerifiedOnly

  /** The filter callback of `filteredPhotos`. */
  predicate Keeps(f: PhotoFilter, p: Photo)
  {
    match f
    case PendingOnly => Pending(p)
    case VerifiedOnly => Verified(p)
    case All => true
  }

  /** `filteredPhotos`: undefined while the photos are loading, otherwise the photos the filter keeps, in order. */
  function FilteredPhotos(photos: Option<seq<Photo>>, f: PhotoFilter): (r: Option<seq<Photo>>)
    ensures r.None? <==> photos.None?
    ensures r.Some? ==> forall p :: p in r.value ==> p in photos.value && Keeps(f, p)
  {
    if photos.None? then None else Some(Filter(photos.value, p => Keeps(f, p)))
  }

  datatype Stats = Stats(total: nat, pending: nat, verified: nat)

  /** The three counts over a list of photos; pending and verified always add up to the total. */
  function StatsOf(photos: seq<Photo>): (r: Stats)
    ensures r.total == |photos|
    ensures r.pending + r.verified == r.total
    ensures r.pending == |Filter(photos, Pending)| && r.verified == |Filter(photos, Verified)|
  {
    FilterPartition(photos, Pending, Verified);
    Stats(|photos|, Count(photos, Pending), Count(photos, Verified))
  }

  /** The gallery's `stats`: zeros while the photos are loading (`photos?.… || 0`). */
  function PageStats(photos: Option<seq<Photo>>): (r: Stats)
    ensures photos.None? ==> r == Stats(0, 0, 0)
    ensures photos.Some? ==> r == StatsOf(photos.value)
  {
    if photos.None? then Stats(0, 0, 0) else StatsOf(photos.value)
  }

  /**
   * The pending and verified views split the gallery: together they hold
   * every photo exactly once, and "all" shows everything.
   */
  lemma FilteredViewsPartition(photos: seq<Photo>)
    ensures var pending := FilteredPhotos(Some(photos), PendingOnly).value;
      var verified := FilteredPhotos(Some(photos), VerifiedOnly).value;
      multiset(pending) + multiset(verified) == multiset(photos)
      && |pending| + |verified| == |photos|
    ensures FilteredPhotos(Some(photos), All) == Some(photos)
  {
    FilterPartition(photos, p => Keeps(PendingOnly, p), p => Keeps(VerifiedOnly, p));
    FilterAll(photos, p => Keeps(All, p));
  }

  /** The counts above the grid are the lengths of the filtered views. */
  lemma StatsMatchViews(photos: seq<Photo>)
    ensures |FilteredPhotos(Some(photos), PendingOnly).value| == PageStats(Some(photos)).pending
    ensures |FilteredPhotos(Some(photos), VerifiedOnly).value| == PageStats(Some(photos)).verified
    ensures |FilteredPhotos(Some(photos), All).value| == PageStats(Some(photos)).total
  {
    FilterSame(photos, p => Keeps(PendingOnly, p), Pending);
    FilterSame(photos, p => Keeps(VerifiedOnly, p), Verified);
    FilterAll(photos, p => Keeps(All, p));
  }

  /** A photo nobody has reviewed yet (`is_verified` null) is listed under pending, not verified. */
  lemma UnreviewedIsPending(photos: seq<Photo>, p: Photo)
    requires p in photos && p.isVerified.None?
    ensures p in FilteredPhotos(Some(photos), PendingOnly).value
    ensures p !in FilteredPhotos(Some(photos), VerifiedOnly).value
  {
    FilterKeeps(photos, q => Keeps(PendingOnly, q), p);
  }

  /** Every view keeps the gallery's order. */
  lemma FilteredInOrder(photos: seq<Photo>, f: PhotoFilter)
    ensures Embeds(FilteredPhotos(Some(photos), f).value, photos)
  {
    FilterEmbeds(photos, p => Keeps(f, p));
  }
}
