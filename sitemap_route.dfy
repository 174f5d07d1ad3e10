/**
 * The `/api/sitemap` route: the sitemap XML built from the static pages
 * and the fetched projects, publications and blog posts.
 *
 * The content fetch is a parameter (None when it fails). A fetched
 * document carries its slug (None when `slug` is missing, which makes
 * `slug.current` throw) and the ISO text of its update time (None when
 * the date is invalid, which makes `toISOString` throw); the current time
 * is given as ISO text.
 */
module SitemapRoute {
  import opened Common

  const DefaultSiteUrl: string := "https://portfolio.example.com"

  /** `process.env.NEXT_PUBLIC_SITE_URL || 'https://portfolio.example.com'`. */
  function SiteUrl(env: Option<string>): (b: string)
    ensures Truthy(env) ==> b == env.value
    ensures !Truthy(env) ==> b == DefaultSiteUrl
  {
    OrElse(env, DefaultSiteUrl)
  }

  datatype SanityDocument = SanityDocument(slug: Option<string>, isoUpdatedAt: Option<string>)

  datatype Fetched = Fetched(projects: seq<SanityDocument>, publications: seq<SanityDocument>, blogPosts: seq<SanityDocument>)

  datatype UrlEntry = UrlEntry(loc: string, lastmod: string, changefreq: string, priority: string)

  const StaticPages: seq<string> := ["", "/about", "/projects", "/publications", "/certifications", "/blog", "/contact"]

  /** A static page: the home page is "daily" at 1.0, every other page "weekly" at 0.8. */
  function StaticEntry(base: string, page: string, nowIso: string): (e: UrlEntry)
    ensures e.loc == base + page && e.lastmod == nowIso
    ensures page == "" ==> e.changefreq == "daily" && e.priority == "1.0"
    ensures page != "" ==> e.changefreq == "weekly" && e.priority == "0.8"
  {
    UrlEntry(base + page, nowIso, if page == "" then "daily" else "weekly", if page == "" then "1.0" else "0.8")
  }

  function StaticEntries(base: string, nowIso: string): (r: seq<UrlEntry>)
    ensures |r| == |StaticPages|
    ensures forall i :: 0 <= i < |r| ==> r[i] == StaticEntry(base, StaticPages[i], nowIso)
  {
    seq(|StaticPages|, i requires 0 <= i < |StaticPages| => StaticEntry(base, StaticPages[i], nowIso))
  }

  predicate Renderable(d: SanityDocument) { d.slug.Some? && d.isoUpdatedAt.Some? }

  /**
   * The entries of fetched documents under `base + prefix`, all "monthly" at
   * the given priority; None as soon as one document cannot be rendered.
   */
  function DocumentEntries(base: string, prefix: string, priority: string, docs: seq<SanityDocument>): (r: Option<seq<UrlEntry>>)
    ensures r.Some? <==> forall i :: 0 <= i < |docs| ==> Renderable(docs[i])
    ensures r.Some? ==> |r.value| == |docs|
    ensures r.Some? ==> forall i :: 0 <= i < |docs| ==>
      r.value[i] == UrlEntry(base + prefix + docs[i].slug.value, docs[i].isoUpdatedAt.value, "monthly", priority)
  {
    if docs == [] then Some([])
    else if !Renderable(docs[0]) then None
    else
      match DocumentEntries(base, prefix, priority, docs[1..])
      case None => None
      case Some(rest) =>
        Some([UrlEntry(base + prefix + docs[0].slug.value, docs[0].isoUpdatedAt.value, "monthly", priority)] + rest)
  }

  /** Every document of the three fetched lists can be rendered. */
  predicate AllRenderable(f: Fetched) {
    && (forall i :: 0 <= i < |f.projects| ==> Renderable(f.projects[i]))
    && (forall i :: 0 <= i < |f.publications| ==> Renderable(f.publications[i]))
    && (forall i :: 0 <= i < |f.blogPosts| ==> Renderable(f.blogPosts[i]))
  }

  /** The four groups of `<url>` entries, in document order. */
  datatype Groups = Groups(statics: seq<UrlEntry>, projects: seq<UrlEntry>, publications: seq<UrlEntry>, posts: seq<UrlEntry>)

  function Entries(base: string, nowIso: string, f: Fetched): (g: Option<Groups>)
    ensures g.Some? <==> AllRenderable(f)
    ensures g.Some? ==>
      && g.value.statics == StaticEntries(base, nowIso)
      && g.value.projects == DocumentEntries(base, "/projects/", "0.7", f.projects).value
      && g.value.publications == DocumentEntries(base, "/publications/", "0.6", f.publications).value
      && g.value.posts == DocumentEntries(base, "/blog/", "0.6", f.blogPosts).value
  {
    var p := DocumentEntries(base, "/projects/", "0.7", f.projects);
    var q := DocumentEntries(base, "/publications/", "0.6", f.publications);
    var b := DocumentEntries(base, "/blog/", "0.6", f.blogPosts);
    if p.Some? && q.Some? && b.Some? then Some(Groups(StaticEntries(base, nowIso), p.value, q.value, b.value))
    else None
  }

  /** One `<url>` element. */
  function UrlXml(e: UrlEntry): string {
    "  <url>\n    <loc>" + e.loc + "</loc>\n    <lastmod>" + e.lastmod + "</lastmod>\n    <changefreq>"
      + e.changefreq + "</changefreq>\n    <priority>" + e.priority + "</priority>\n  </url>"
  }

  /** The `<url>` elements of the entries, one per entry, in order. */
  function UrlXmls(entries: seq<UrlEntry>): seq<string> {
    seq(|entries|, i requires 0 <= i < |entries| => UrlXml(entries[i]))
  }

  lemma UrlXmlsAppend(a: seq<UrlEntry>, b: seq<UrlEntry>)
    ensures UrlXmls(a + b) == UrlXmls(a) + UrlXmls(b)
  {
  }

  /** `entries.map(...).join('\n')`: the entries' elements joined by line breaks. */
  function Block(entries: seq<UrlEntry>): (s: string)
    ensures entries == [] ==> s == ""
    ensures s == Join(UrlXmls(entries), "\n")
  {
    if entries == [] then ""
    else if |entries| == 1 then UrlXml(entries[0])
    else
      assert UrlXmls(entries)[1..] == UrlXmls(entries[1..]);
      UrlXml(entries[0]) + "\n" + Block(entries[1..])
  }

  /** Four non-empty blocks on consecutive lines are the join of all their elements. */
  lemma {:induction false} BlocksJoin(a: seq<UrlEntry>, b: seq<UrlEntry>, c: seq<UrlEntry>, d: seq<UrlEntry>)
    ensures a != [] && b != [] && c != [] && d != [] ==>
      Block(a) + "\n" + Block(b) + "\n" + Block(c) + "\n" + Block(d) == Join(UrlXmls(a + b + c + d), "\n")
  {
    if a == [] || b == [] || c == [] || d == [] {
      return;
    }
    UrlXmlsAppend(a, b);
    UrlXmlsAppend(a + b, c);
    UrlXmlsAppend(a + b + c, d);
    JoinAppend(UrlXmls(a), UrlXmls(b), "\n");
    JoinAppend(UrlXmls(a + b), UrlXmls(c), "\n");
    JoinAppend(UrlXmls(a + b + c), UrlXmls(d), "\n");
  }

  const XmlHeader: string := "<?xml version=\"1.0\" encoding=\"UTF-8\"?>\n<urlset xmlns=\"http://www.sitemaps.org/schemas/sitemap/0.9\">\n"
  const XmlFooter: string := "\n</urlset>"

  /**
   * The whole document: the header, the four blocks on their own lines, the
   * closing tag. When no group is empty this is one `<url>` element per
   * entry, statics first, then projects, publications and posts, one per
   * line; an empty group leaves an empty line in its place.
   */
  function Document(g: Groups): (s: string)
    ensures |s| >= |XmlHeader| + |XmlFooter|
    ensures s[..|XmlHeader|] == XmlHeader
    ensures s[|s| - |XmlFooter|..] == XmlFooter
    ensures g.statics != [] && g.projects != [] && g.publications != [] && g.posts != [] ==>
      s == XmlHeader + Join(UrlXmls(g.statics + g.projects + g.publications + g.posts), "\n") + XmlFooter
  {
    var body := Block(g.statics) + "\n" + Block(g.projects) + "\n" + Block(g.publications) + "\n" + Block(g.posts);
    Framed(XmlHeader, body, XmlFooter);
    BlocksJoin(g.statics, g.projects, g.publications, g.posts);
    XmlHeader + body + XmlFooter
  }

  /** A text between a head and a foot starts with the head and ends with the foot. */
  lemma Framed(head: string, body: string, foot: string)
    ensures (head + body + foot)[..|head|] == head
    ensures (head + body + foot)[|head + body + foot| - |foot|..] == foot
  {
  }

  datatype Response = Response(status: int, body: string, contentType: Option<string>, cacheControl: Option<string>)

  /** `GET`: the XML with status 200, or 500 when the fetch fails or a document cannot be rendered. */
  function Get(env: Option<string>, nowIso: string, fetched: Option<Fetched>): (r: Response)
    ensures r.status == 200 <==> fetched.Some? && AllRenderable(fetched.value)
    ensures r.status == 200 ==>
      && r.body == Document(Entries(SiteUrl(env), nowIso, fetched.value).value)
      && r.contentType == Some("application/xml")
      && r.cacheControl == Some("public, max-age=3600, s-maxage=3600")
    ensures r.status != 200 ==> r.status == 500 && r.body == "Internal Server Error"
  {
    if fetched.None? then Response(500, "Internal Server Error", None, None)
    else
      match Entries(SiteUrl(env), nowIso, fetched.value)
      case None => Response(500, "Internal Server Error", None, None)
      case Some(g) => Response(200, Document(g), Some("application/xml"), Some("public, max-age=3600, s-maxage=3600"))
  }

  /** The sitemap lists exactly the seven static pages and one entry per fetched document. */
  lemma EntryCount(env: Option<string>, nowIso: string, f: Fetched)
    requires AllRenderable(f)
    ensures var g := Entries(SiteUrl(env), nowIso, f).value;
      |g.statics| + |g.projects| + |g.publications| + |g.posts| == 7 + |f.projects| + |f.publications| + |f.blogPosts|
  {
  }

  /**
   * With something in each fetched list, the 200 body lists one `<url>`
   * element per static page, then per project, publication and post, in
   * that order, and nothing else between the header and the closing tag.
   */
  lemma DocumentListsEveryEntry(env: Option<string>, nowIso: string, f: Fetched)
    requires AllRenderable(f)
    requires f.projects != [] && f.publications != [] && f.blogPosts != []
    ensures var base := SiteUrl(env);
      var all := StaticEntries(base, nowIso)
        + DocumentEntries(base, "/projects/", "0.7", f.projects).value
        + DocumentEntries(base, "/publications/", "0.6", f.publications).value
        + DocumentEntries(base, "/blog/", "0.6", f.blogPosts).value;
      && |all| == 7 + |f.projects| + |f.publications| + |f.blogPosts|
      && Get(env, nowIso, Some(f)).body == XmlHeader + Join(UrlXmls(all), "\n") + XmlFooter
  {
  }

  /** The home page is the first entry, under the bare site url, "daily" at 1.0. */
  lemma HomeFirst(base: string, nowIso: string)
    ensures StaticEntries(base, nowIso)[0] == UrlEntry(base, nowIso, "daily", "1.0")
  {
    assert StaticPages[0] == "";
  }

  /** A single unrenderable document anywhere turns the whole response into a 500. */
  lemma OneBadDocumentFails(env: Option<string>, nowIso: string, f: Fetched, i: nat)
    requires i < |f.blogPosts| && !Renderable(f.blogPosts[i])
    ensures Get(env, nowIso, Some(f)).status == 500
  {
  }
}
