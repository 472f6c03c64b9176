/** The sitemap: the home page followed by one page per active product, or a
    fixed list of four pages when the store cannot be read. */
module Sitemap {
  import opened Wrappers
  import opened Text
  import opened Queries
  import opened Store

  const DEFAULT_SITE_URL: string := "https://b2bee.ai"

  /** The slugs listed when the store is unavailable. */
  const FALLBACK_SLUGS: seq<string> := ["social-bee", "sales-bee", "bespoke-bee"]

  datatype Frequency = Daily | Weekly

  /** One sitemap entry; the priority is in tenths. */
  datatype Entry = Entry(url: string, lastModified: Instant, changeFrequency: Frequency, priorityTenths: int)

  /** The configured site address, or the default when unset or empty. */
  function SiteUrl(configured: Option<string>): (u: string)
    ensures u != ""
    ensures Filled(configured) ==> u == configured.value
  {
    OrDefault(configured, DEFAULT_SITE_URL)
  }

  function HomeEntry(siteUrl: string, now: Instant): Entry {
    Entry(siteUrl, now, Daily, 10)
  }

  /** The page of the product with `slug`. */
  function BeeUrl(siteUrl: string, slug: string): string {
    siteUrl + "/bee/" + slug
  }

  /** The entry of one product page. */
  function BeeEntry(siteUrl: string, b: Bee): Entry {
    Entry(BeeUrl(siteUrl, b.slug), b.updatedAt, Weekly, 8)
  }

  /** The entries of `bees`, in store order. */
  function BeeEntries(siteUrl: string, bees: seq<Bee>): (es: seq<Entry>)
    ensures |es| == |bees|
    ensures forall k :: 0 <= k < |es| ==> es[k] == BeeEntry(siteUrl, bees[k])
  {
    if |bees| == 0 then [] else [BeeEntry(siteUrl, bees[0])] + BeeEntries(siteUrl, bees[1..])
  }

  function IsActive(b: Bee): bool { b.isActive }

  /** The sitemap read from the store: the home page, then one entry per
      active product. */
  function Live(siteUrl: string, bees: seq<Bee>, now: Instant): (r: seq<Entry>)
    ensures |r| == 1 + |Filter(bees, IsActive)|
    ensures r[0] == HomeEntry(siteUrl, now)
    ensures forall k :: 1 <= k < |r| ==> exists b :: b in bees && b.isActive && r[k] == BeeEntry(siteUrl, b)
    ensures forall b :: b in bees && b.isActive ==> BeeEntry(siteUrl, b) in r[1..]
  {
    var active := Filter(bees, IsActive);
    var es := BeeEntries(siteUrl, active);
    assert forall k :: 0 <= k < |es| ==> active[k] in bees && active[k].isActive;
    assert forall b :: b in bees && b.isActive ==> b in active;
    var r := [HomeEntry(siteUrl, now)] + es;
    assert r[1..] == es;
    r
  }

  /** The sitemap when the store is unavailable. */
  function Fallback(siteUrl: string, now: Instant): (r: seq<Entry>)
    ensures |r| == 1 + |FALLBACK_SLUGS|
    ensures r[0] == HomeEntry(siteUrl, now)
    ensures forall k :: 1 <= k < |r| ==> r[k] == Entry(BeeUrl(siteUrl, FALLBACK_SLUGS[k - 1]), now, Weekly, 8)
  {
    [HomeEntry(siteUrl, now),
     Entry(BeeUrl(siteUrl, "social-bee"), now, Weekly, 8),
     Entry(BeeUrl(siteUrl, "sales-bee"), now, Weekly, 8),
     Entry(BeeUrl(siteUrl, "bespoke-bee"), now, Weekly, 8)]
  }

  /** The sitemap. `available` is false when the store cannot be read. */
  function Build(configured: Option<string>, st: Store, available: bool, now: Instant): (r: seq<Entry>)
    // the home page comes first, with the top priority
    ensures |r| >= 1 && r[0] == HomeEntry(SiteUrl(configured), now) && r[0].priorityTenths == 10
    // with the store: exactly one entry per active product
    ensures available ==> |r| == 1 + |Filter(st.bees, IsActive)|
    ensures available ==> forall k :: 1 <= k < |r| ==>
              exists b :: b in st.bees && b.isActive && r[k] == BeeEntry(SiteUrl(configured), b)
    ensures available ==> forall b :: b in st.bees && b.isActive ==> BeeEntry(SiteUrl(configured), b) in r[1..]
    // without it: the fixed four pages
    ensures !available ==> |r| == 4
    ensures !available ==> forall k :: 1 <= k < 4 ==> r[k].url == BeeUrl(SiteUrl(configured), FALLBACK_SLUGS[k - 1])
  {
    if available then Live(SiteUrl(configured), st.bees, now) else Fallback(SiteUrl(configured), now)
  }

  /** Distinct slugs give distinct page addresses. */
  lemma SlugOfUrl(siteUrl: string, a: string, b: string)
    requires a != b
    ensures BeeUrl(siteUrl, a) != BeeUrl(siteUrl, b)
  {
    var p := siteUrl + "/bee/";
    assert (p + a)[|p|..] == a && (p + b)[|p|..] == b;
  }

  /** An inactive product has no page in the sitemap, as long as no active
      product shares its slug. */
  lemma InactiveBeeNotListed(configured: Option<string>, st: Store, now: Instant, x: Bee)
    requires x in st.bees && !x.isActive
    requires forall b :: b in st.bees && b.isActive ==> b.slug != x.slug
    ensures forall k :: 1 <= k < |Build(configured, st, true, now)| ==>
              Build(configured, st, true, now)[k].url != BeeUrl(SiteUrl(configured), x.slug)
  {
    var siteUrl := SiteUrl(configured);
    var r := Build(configured, st, true, now);
    forall k | 1 <= k < |r| ensures r[k].url != BeeUrl(siteUrl, x.slug) {
      var b :| b in st.bees && b.isActive && r[k] == BeeEntry(siteUrl, b);
      SlugOfUrl(siteUrl, b.slug, x.slug);
    }
  }
}
