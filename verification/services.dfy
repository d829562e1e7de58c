/**
 * The service catalogue accessors: the row-to-view mapping and the four
 * queries the pages and the submission endpoint use, stated over an
 * in-memory `services` table.
 *
 * Ordering is PostgreSQL's ascending order on `order_index` with NULLs last.
 * The database leaves the order of rows with equal keys unspecified, so the
 * contracts promise only that the result is ordered and is a permutation of
 * the matching rows; the model itself orders them with a stable insertion sort.
 */
module Services {
  import opened Wrappers
  import opened JsJson
  import opened Backend

  /**
   * A row of the `services` table. Fields carry the database column names,
   * so the renaming done by `MapToService` stays visible.
   */
  datatype ServiceRow = ServiceRow(
    id: string,
    title: string,
    slug: string,
    href: string,
    category: Option<string>,
    description: Option<string>,
    short_description: Option<string>,
    icon: Option<string>,
    order_index: Option<int>,
    content: Option<string>,
    features: Option<seq<string>>,
    requirements: Option<seq<string>>,
    includes: Option<seq<string>>,
    published: bool,
    featured: bool,
    created_at: string,
    updated_at: Option<string>,
    processing_time: Option<string>,
    pricing: Option<real>,
    image: Option<string>,
    thumbnail: Option<string>,
    seo_title: Option<string>,
    seo_description: Option<string>,
    seo_keywords: Option<string>,
    pricing_plans: Option<Json>,
    process_steps: Option<Json>,
    success_story: Option<Json>)

  /** The view model the pages render: camelCase keys and no update timestamp. */
  datatype Service = Service(
    id: string,
    title: string,
    slug: string,
    href: string,
    category: Option<string>,
    description: Option<string>,
    shortDescription: Option<string>,
    icon: Option<string>,
    orderIndex: Option<int>,
    content: Option<string>,
    features: Option<seq<string>>,
    requirements: Option<seq<string>>,
    includes: Option<seq<string>>,
    published: bool,
    featured: bool,
    createdAt: string,
    processingTime: Option<string>,
    pricing: Option<real>,
    image: Option<string>,
    thumbnail: Option<string>,
    seoTitle: Option<string>,
    seoDescription: Option<string>,
    seoKeywords: Option<string>,
    pricingPlans: Option<Json>,
    processSteps: Option<Json>,
    successStory: Option<Json>)

  // ---------------------------------------------------------------------------
  // Row mapping
  // ---------------------------------------------------------------------------

  /**
   * Rebuilds the row a view came from, given the update timestamp the view
   * does not carry: the camelCase keys go back to their column names.
   */
  function RowOf(s: Service, updatedAt: Option<string>): ServiceRow {
    ServiceRow(
      s.id, s.title, s.slug, s.href, s.category, s.description,
      s.shortDescription, s.icon, s.orderIndex, s.content, s.features,
      s.requirements, s.includes, s.published, s.featured, s.createdAt,
      updatedAt, s.processingTime, s.pricing, s.image, s.thumbnail,
      s.seoTitle, s.seoDescription, s.seoKeywords, s.pricingPlans,
      s.processSteps, s.successStory)
  }

  /**
   * The view of a row. Every column but `updated_at` survives under its
   * camelCase name, so putting the timestamp back recovers the row.
   */
  function MapToService(row: ServiceRow): (s: Service)
    ensures RowOf(s, row.updated_at) == row
  {
    Service(
      id := row.id,
      title := row.title,
      slug := row.slug,
      href := row.href,
      category := row.category,
      description := row.description,
      shortDescription := row.short_description,
      icon := row.icon,
      orderIndex := row.order_index,
      content := row.content,
      features := row.features,
      requirements := row.requirements,
      includes := row.includes,
      published := row.published,
      featured := row.featured,
      createdAt := row.created_at,
      processingTime := row.processing_time,
      pricing := row.pricing,
      image := row.image,
      thumbnail := row.thumbnail,
      seoTitle := row.seo_title,
      seoDescription := row.seo_description,
      seoKeywords := row.seo_keywords,
      pricingPlans := row.pricing_plans,
      processSteps := row.process_steps,
      successStory := row.success_story)
  }

  /** Mapping then rebuilding with any timestamp changes nothing but the timestamp. */
  lemma RowOfMapToService(s: Service, u: Option<string>)
    ensures MapToService(RowOf(s, u)) == s
  {
  }

  /** Two rows have the same view exactly when they differ at most in `updated_at`. */
  lemma MapToServiceDropsOnlyUpdatedAt(a: ServiceRow, b: ServiceRow)
    ensures MapToService(a) == MapToService(b) <==> a.(updated_at := None) == b.(updated_at := None)
  {
    if MapToService(a) == MapToService(b) {
      assert a.(updated_at := None) == RowOf(MapToService(a), None);
      assert b.(updated_at := None) == RowOf(MapToService(b), None);
    }
  }

  /** The views of a sequence of rows, in order. */
  function MapAll(rows: seq<ServiceRow>): (r: seq<Service>)
    ensures |r| == |rows|
    ensures forall i :: 0 <= i < |rows| ==> r[i] == MapToService(rows[i])
  {
    MapSeq(rows, MapToService)
  }

  // ---------------------------------------------------------------------------
  // Ordering on order_index, ascending, NULLs last
  // ---------------------------------------------------------------------------

  /** `a` may precede `b`: a present index before an absent one, smaller before larger. */
  predicate KeyLe(a: Option<int>, b: Option<int>) {
    match (a, b)
    case (_, None) => true
    case (None, Some(_)) => false
    case (Some(x), Some(y)) => x <= y
  }

  /** Rows in ascending `order_index`. */
  predicate RowsOrdered(rows: seq<ServiceRow>) {
    forall i, j :: 0 <= i < j < |rows| ==> KeyLe(rows[i].order_index, rows[j].order_index)
  }

  /** Views in ascending `orderIndex`. */
  predicate ServicesOrdered(s: seq<Service>) {
    forall i, j :: 0 <= i < j < |s| ==> KeyLe(s[i].orderIndex, s[j].orderIndex)
  }

  /** Places a row into an ordered sequence after every row it does not precede. */
  function InsertByOrder(x: ServiceRow, rows: seq<ServiceRow>): (r: seq<ServiceRow>)
    requires RowsOrdered(rows)
    ensures RowsOrdered(r)
    ensures multiset(r) == multiset(rows) + multiset{x}
  {
    if |rows| == 0 then [x]
    else if KeyLe(x.order_index, rows[0].order_index) then [x] + rows
    else
      var tail := InsertByOrder(x, rows[1..]);
      assert rows == [rows[0]] + rows[1..];
      HeadPrecedesInserted(x, rows, tail);
      [rows[0]] + tail
  }

  /** The head of an ordered sequence precedes every row of its tail with `x` inserted, when `x` does not precede it. */
  lemma HeadPrecedesInserted(x: ServiceRow, rows: seq<ServiceRow>, tail: seq<ServiceRow>)
    requires RowsOrdered(rows) && |rows| > 0
    requires !KeyLe(x.order_index, rows[0].order_index)
    requires multiset(tail) == multiset(rows[1..]) + multiset{x}
    ensures forall k :: 0 <= k < |tail| ==> KeyLe(rows[0].order_index, tail[k].order_index)
  {
    forall k | 0 <= k < |tail|
      ensures KeyLe(rows[0].order_index, tail[k].order_index)
    {
      assert tail[k] in multiset(tail);
      if tail[k] != x {
        assert tail[k] in multiset(rows[1..]);
        var m :| 0 <= m < |rows[1..]| && rows[1..][m] == tail[k];
        assert rows[m + 1] == tail[k];
      }
    }
  }

  /** `.order('order_index', { ascending: true })`: an ordered permutation of the rows. */
  function OrderByIndex(rows: seq<ServiceRow>): (r: seq<ServiceRow>)
    ensures RowsOrdered(r)
    ensures multiset(r) == multiset(rows)
  {
    if |rows| == 0 then []
    else
      assert rows == [rows[0]] + rows[1..];
      InsertByOrder(rows[0], OrderByIndex(rows[1..]))
  }

  /** Mapping keeps the order, since `orderIndex` is `order_index`. */
  lemma MapAllKeepsOrder(rows: seq<ServiceRow>)
    requires RowsOrdered(rows)
    ensures ServicesOrdered(MapAll(rows))
  {
  }

  // ---------------------------------------------------------------------------
  // Queries
  // ---------------------------------------------------------------------------

  /** `.eq('published', true)` */
  predicate IsPublished(row: ServiceRow) {
    row.published
  }

  /** `.eq('published', true).eq('featured', true)` */
  predicate IsPublishedAndFeatured(row: ServiceRow) {
    row.published && row.featured
  }

  /** `.eq('slug', slug)` */
  function SlugIs(slug: string): ServiceRow -> bool {
    (row: ServiceRow) => row.slug == slug
  }

  /** The published rows ordered by index, before mapping. */
  function PublishedRowsOrdered(rows: seq<ServiceRow>): (r: seq<ServiceRow>)
    ensures RowsOrdered(r)
    ensures multiset(r) == multiset(Where(rows, IsPublished))
  {
    OrderByIndex(Where(rows, IsPublished))
  }

  /**
   * `getPublishedServices`: the views of the published rows in ascending
   * `order_index`, every published row exactly once; an empty list when
   * the query fails.
   */
  function PublishedServices(t: Table<ServiceRow>): (r: seq<Service>)
    ensures t.Failing? ==> r == []
    ensures forall i :: 0 <= i < |r| ==> r[i].published
    ensures ServicesOrdered(r)
    ensures t.Rows? ==> multiset(r) == multiset(MapAll(Where(t.rows, IsPublished)))
  {
    match t
    case Failing(_) => []
    case Rows(rows) =>
      var ordered := PublishedRowsOrdered(rows);
      MapAllKeepsOrder(ordered);
      MapSeqPermutation(ordered, Where(rows, IsPublished), MapToService);
      assert forall i :: 0 <= i < |ordered| ==> ordered[i] in multiset(Where(rows, IsPublished));
      MapAll(ordered)
  }

  /** The number of rows `getFeaturedServices` returns at most. */
  const FeaturedLimit := 4

  /**
   * The views of every published and featured row, in ascending index:
   * what the query returns before its limit.
   */
  function FeaturedAll(rows: seq<ServiceRow>): (all: seq<Service>)
    ensures ServicesOrdered(all)
    ensures multiset(all) == multiset(MapAll(Where(rows, IsPublishedAndFeatured)))
    ensures |all| == |Where(rows, IsPublishedAndFeatured)|
    ensures AllPublishedAndFeatured(all)
  {
    var matching := Where(rows, IsPublishedAndFeatured);
    var ordered := OrderByIndex(matching);
    MapAllKeepsOrder(ordered);
    MapSeqPermutation(ordered, matching, MapToService);
    forall i | 0 <= i < |ordered|
      ensures ordered[i].published && ordered[i].featured
    {
      assert ordered[i] in multiset(matching);
    }
    MapAll(ordered)
  }

  /** Every view is of a published and featured row. */
  predicate AllPublishedAndFeatured(s: seq<Service>) {
    forall i :: 0 <= i < |s| ==> s[i].published && s[i].featured
  }

  /** Every view of `r` may precede every view of `rest`: nothing left out ranks before a chosen one. */
  predicate PrecedesAll(r: seq<Service>, rest: multiset<Service>) {
    forall s, s' :: s in r && s' in rest ==> KeyLe(s.orderIndex, s'.orderIndex)
  }

  /** The number of views the query returns: the limit, or fewer when fewer rows match. */
  function FeaturedCount(rows: seq<ServiceRow>): nat {
    var n := |Where(rows, IsPublishedAndFeatured)|;
    if n < FeaturedLimit then n else FeaturedLimit
  }

  /** The first `FeaturedLimit` views of the ordered featured rows. */
  function FeaturedOf(rows: seq<ServiceRow>): seq<Service> {
    FeaturedAll(rows)[..FeaturedCount(rows)]
  }

  /**
   * `getFeaturedServices`: at most four views, each published and featured,
   * in ascending `order_index`, and no featured row left out has a smaller
   * index than one returned; an empty list when the query fails.
   */
  function FeaturedServices(t: Table<ServiceRow>): (r: seq<Service>)
    ensures |r| <= FeaturedLimit
    ensures t.Failing? ==> r == []
    ensures AllPublishedAndFeatured(r)
    ensures ServicesOrdered(r)
    ensures t.Rows? ==> |r| == if |Where(t.rows, IsPublishedAndFeatured)| < FeaturedLimit
                               then |Where(t.rows, IsPublishedAndFeatured)| else FeaturedLimit
    ensures t.Rows? ==> multiset(r) <= multiset(MapAll(Where(t.rows, IsPublishedAndFeatured)))
    ensures t.Rows? ==> PrecedesAll(r, multiset(MapAll(Where(t.rows, IsPublishedAndFeatured))) - multiset(r))
  {
    match t
    case Failing(_) => []
    case Rows(rows) =>
      FeaturedOfIsSmallest(rows);
      FeaturedOf(rows)
  }

  /** The featured selection is the ordered prefix of the featured rows' views. */
  lemma FeaturedOfIsSmallest(rows: seq<ServiceRow>)
    ensures var r := FeaturedOf(rows);
      var all := MapAll(Where(rows, IsPublishedAndFeatured));
      && |r| == (if |all| < FeaturedLimit then |all| else FeaturedLimit)
      && AllPublishedAndFeatured(r)
      && ServicesOrdered(r)
      && multiset(r) <= multiset(all)
      && PrecedesAll(r, multiset(all) - multiset(r))
  {
    TakeIsSmallest(FeaturedAll(rows), FeaturedCount(rows));
  }

  /** The first `k` of an ordered sequence precede everything after them. */
  lemma TakeIsSmallest(all: seq<Service>, k: nat)
    requires ServicesOrdered(all) && k <= |all|
    ensures ServicesOrdered(all[..k])
    ensures AllPublishedAndFeatured(all) ==> AllPublishedAndFeatured(all[..k])
    ensures multiset(all[..k]) <= multiset(all)
    ensures PrecedesAll(all[..k], multiset(all) - multiset(all[..k]))
  {
    TakeRest(all, k);
    TakePrecedesDrop(all, k);
  }

  /** What a prefix leaves out of a sequence is its suffix. */
  lemma TakeRest(all: seq<Service>, k: nat)
    requires k <= |all|
    ensures multiset(all[..k]) <= multiset(all)
    ensures multiset(all) - multiset(all[..k]) == multiset(all[k..])
  {
    assert all == all[..k] + all[k..];
  }

  /** In an ordered sequence, each of the first `k` precedes each of the rest. */
  lemma TakePrecedesDrop(all: seq<Service>, k: nat)
    requires ServicesOrdered(all) && k <= |all|
    ensures PrecedesAll(all[..k], multiset(all[k..]))
  {
    forall s, s' | s in all[..k] && s' in multiset(all[k..])
      ensures KeyLe(s.orderIndex, s'.orderIndex)
    {
      var i :| 0 <= i < k && all[i] == s;
      assert s' in all[k..];
      var j :| k <= j < |all| && all[j] == s';
    }
  }

  /**
   * `getServiceBySlug`: the view of the one row with that slug, published or
   * not; `null` when the query fails or when `.single()` finds no row or
   * several rows.
   */
  function ServiceBySlug(t: Table<ServiceRow>, slug: string): (r: Option<Service>)
    ensures r.Some? <==> t.Rows? && |Where(t.rows, SlugIs(slug))| == 1
    ensures r.Some? ==> r.value.slug == slug
    ensures r.Some? ==> exists row :: row in t.rows && row.slug == slug && MapToService(row) == r.value
  {
    match t
    case Failing(_) => None
    case Rows(rows) =>
      match Single(rows, SlugIs(slug))
      case None => None
      case Some(row) => Some(MapToService(row))
  }

  /** The slug of a row. */
  function RowSlug(row: ServiceRow): string {
    row.slug
  }

  /** The slug of a view. */
  function ServiceSlug(s: Service): string {
    s.slug
  }

  /**
   * `getAllPublishedServiceSlugs`: the slug of every published row, one per
   * row, in table order (the query names no order); an empty list when the
   * query fails.
   */
  function PublishedServiceSlugs(t: Table<ServiceRow>): (r: seq<string>)
    ensures t.Failing? ==> r == []
    ensures t.Rows? ==> |r| == |Where(t.rows, IsPublished)|
    ensures t.Rows? ==> multiset(r) == multiset(MapSeq(Where(t.rows, IsPublished), RowSlug))
    ensures t.Rows? ==> forall i :: 0 <= i < |r| ==>
      exists row :: row in t.rows && row.published && row.slug == r[i]
  {
    match t
    case Failing(_) => []
    case Rows(rows) =>
      var published := Where(rows, IsPublished);
      var r := MapSeq(published, RowSlug);
      assert forall i :: 0 <= i < |r| ==> published[i] in rows && published[i].published && published[i].slug == r[i];
      r
  }

  // ---------------------------------------------------------------------------
  // Relations between the queries
  // ---------------------------------------------------------------------------

  /** The slug list names the same slugs, as often, as the published listing. */
  lemma {:induction false} SlugsMatchPublishedListing(t: Table<ServiceRow>)
    ensures multiset(PublishedServiceSlugs(t)) == multiset(MapSeq(PublishedServices(t), ServiceSlug))
  {
    if t.Rows? {
      var published := Where(t.rows, IsPublished);
      var ordered := PublishedRowsOrdered(t.rows);
      MapSeqCompose(ordered, MapToService, ServiceSlug, RowSlug);
      MapSeqPermutation(ordered, published, RowSlug);
    }
  }

  /** No two rows share a slug, as the table's unique constraint guarantees. */
  predicate UniqueSlugs(rows: seq<ServiceRow>) {
    forall i, j :: 0 <= i < |rows| && 0 <= j < |rows| && rows[i].slug == rows[j].slug ==> i == j
  }

  /**
   * With unique slugs, looking a row up by its own slug finds it, whether or
   * not it is published; in particular every slug of the slug list resolves
   * to a published service.
   */
  lemma EverySlugResolves(t: Table<ServiceRow>, i: nat)
    requires t.Rows? && UniqueSlugs(t.rows) && i < |t.rows|
    ensures ServiceBySlug(t, t.rows[i].slug) == Some(MapToService(t.rows[i]))
  {
    WhereSingleMatch(t.rows, SlugIs(t.rows[i].slug), i);
  }
}
