/**
 * The `sitemap()` metadata route: the static entries of the site followed
 * by one entry per project.
 */
module SitemapPage {
  import opened Common
  import Seo

  /** A project as the sitemap sees it: its slug and its last update (a timestamp). */
  datatype ProjectStamp = ProjectStamp(slug: string, updatedAt: int)

  /** The domain the project entries are built on as written. */
  const PlaceholderBase: string := "https://johndoe.dev"

  /** One "monthly", priority 0.8 entry per project, in the projects' order, under `base`. */
  function ProjectEntries(base: string, projects: seq<ProjectStamp>): (r: seq<Seo.SitemapEntry>)
    ensures |r| == |projects|
    ensures forall i :: 0 <= i < |projects| ==>
      r[i] == Seo.SitemapEntry(base + "/projects/" + projects[i].slug, projects[i].updatedAt, "monthly", 8)
  {
    seq(|projects|, i requires 0 <= i < |projects| =>
      Seo.SitemapEntry(base + "/projects/" + projects[i].slug, projects[i].updatedAt, "monthly", 8))
  }

  /** `sitemap()` as written: the project entries use the placeholder domain. */
  function SitemapAsWritten(now: int, projects: seq<ProjectStamp>): (r: seq<Seo.SitemapEntry>)
    ensures |r| == |Seo.SitemapUrls(now)| + |projects|
    ensures r[..5] == Seo.SitemapUrls(now)
    ensures r[5..] == ProjectEntries(PlaceholderBase, projects)
  {
    Seo.SitemapUrls(now) + ProjectEntries(PlaceholderBase, projects)
  }

  /** Whether a url lies under the site's domain. */
  predicate OnSite(url: string) {
    |url| >= |Seo.BaseUrl| && url[..|Seo.BaseUrl|] == Seo.BaseUrl
  }

  /**
   * As written, every static entry lies on the site and every project entry
   * lies outside it.
   */
  lemma AsWrittenLeavesTheSite(now: int, projects: seq<ProjectStamp>)
    ensures forall i :: 0 <= i < 5 ==> OnSite(SitemapAsWritten(now, projects)[i].url)
    ensures forall i :: 5 <= i < |SitemapAsWritten(now, projects)| ==> !OnSite(SitemapAsWritten(now, projects)[i].url)
  {
    var r := SitemapAsWritten(now, projects);
    SitemapStaysOnSite(now, projects);
    assert forall i :: 0 <= i < 5 ==> r[i] == Sitemap(now, projects)[i];
    forall i | 5 <= i < |r| ensures !OnSite(r[i].url) {
      assert r[i] == ProjectEntries(PlaceholderBase, projects)[i - 5];
      var url := r[i].url;
      assert url == PlaceholderBase + "/projects/" + projects[i - 5].slug;
      assert url[8] == 'j' && Seo.BaseUrl[8] == 'v';
    }
  }

  /** `sitemap()` with its project entries on the site's own domain. */
  function Sitemap(now: int, projects: seq<ProjectStamp>): (r: seq<Seo.SitemapEntry>)
    ensures |r| == |Seo.SitemapUrls(now)| + |projects|
    ensures r[..5] == Seo.SitemapUrls(now)
    ensures r[5..] == ProjectEntries(Seo.BaseUrl, projects)
  {
    Seo.SitemapUrls(now) + ProjectEntries(Seo.BaseUrl, projects)
  }

  /** Every entry of the corrected sitemap lies under the site's domain. */
  lemma SitemapStaysOnSite(now: int, projects: seq<ProjectStamp>)
    ensures forall i :: 0 <= i < |Sitemap(now, projects)| ==> OnSite(Sitemap(now, projects)[i].url)
  {
    var r := Sitemap(now, projects);
    forall i | 0 <= i < |r| ensures OnSite(r[i].url) {
      if i >= 5 {
        assert r[i] == ProjectEntries(Seo.BaseUrl, projects)[i - 5];
        assert r[i].url == Seo.BaseUrl + ("/projects/" + projects[i - 5].slug);
      }
    }
  }

  /** Adding projects adds their entries at the end, in order. */
  lemma SitemapAppend(now: int, a: seq<ProjectStamp>, b: seq<ProjectStamp>)
    ensures Sitemap(now, a + b) == Sitemap(now, a) + ProjectEntries(Seo.BaseUrl, b)
  {
    assert ProjectEntries(Seo.BaseUrl, a + b) == ProjectEntries(Seo.BaseUrl, a) + ProjectEntries(Seo.BaseUrl, b);
  }
}
