/**
 * The page metadata builder: the merge of a partial configuration over the
 * site defaults, the Next.js metadata object built from it, the schema.org
 * structured data for the four page kinds, and the metadata of a blog
 * post and of a project page.
 *
 * An absent value (`undefined`) is `None`; the fixed robots and
 * verification blocks of the metadata are not part of this model.
 */
module Seo {
  import opened Common

  const BaseUrl: string := "https://vaibhavsuman.dev"
  const SiteName: string := "Vaibhav Suman Portfolio"
  const DefaultTitle: string := "Vaibhav Suman - Full Stack Developer & AI/ML Engineer"
  const DefaultDescription: string := "Experienced Full Stack Developer and AI/ML Engineer specializing in React, Node.js, Python, and modern web technologies. Building scalable applications with AI integration and delivering exceptional user experiences."
  const DefaultKeywords: seq<string> := [
    "Full Stack Developer", "AI/ML Engineer", "Machine Learning", "Artificial Intelligence",
    "Software Engineer", "React Developer", "Node.js Developer", "Python Developer", "TypeScript",
    "JavaScript", "Web Development", "Frontend Developer", "Backend Developer", "Data Science",
    "Deep Learning", "Neural Networks", "Portfolio", "Software Development", "Web Applications",
    "API Development", "Database Design", "Cloud Computing", "AWS", "DevOps", "Agile Development"]
  const DefaultAuthor: string := "Vaibhav Suman"

  // ---------------------------------------------------------------------
  // Configuration and its merge over the defaults
  // ---------------------------------------------------------------------

  /** A resolved configuration: every key, each possibly undefined. */
  datatype SeoConfig = SeoConfig(
    title: Option<string>,
    description: Option<string>,
    keywords: Option<seq<string>>,
    author: Option<string>,
    url: Option<string>,
    image: Option<string>,
    pageType: Option<string>,
    publishedTime: Option<string>,
    modifiedTime: Option<string>,
    section: Option<string>,
    tags: Option<seq<string>>,
    locale: Option<string>,
    alternateLocales: Option<seq<string>>)

  const DefaultSeo: SeoConfig := SeoConfig(
    Some(DefaultTitle), Some(DefaultDescription), Some(DefaultKeywords), Some(DefaultAuthor),
    Some(BaseUrl), Some(BaseUrl + "/og-image.jpg"), Some("website"),
    None, None, None, None, Some("en_US"), None)

  /** A key of a partial configuration: not written, written as `undefined`, or given a value. */
  datatype Field<T> = Absent | Undefined | Given(value: T)

  /** A key written from an optional value: `undefined` when the value is missing. */
  function FromOption<T>(o: Option<T>): (f: Field<T>)
    ensures f != Absent
  {
    match o
    case None => Undefined
    case Some(v) => Given(v)
  }

  datatype PartialConfig = PartialConfig(
    title: Field<string>,
    description: Field<string>,
    keywords: Field<seq<string>>,
    author: Field<string>,
    url: Field<string>,
    image: Field<string>,
    pageType: Field<string>,
    publishedTime: Field<string>,
    modifiedTime: Field<string>,
    section: Field<string>,
    tags: Field<seq<string>>,
    locale: Field<string>,
    alternateLocales: Field<seq<string>>)

  const EmptyConfig: PartialConfig := PartialConfig(
    Absent, Absent, Absent, Absent, Absent, Absent, Absent, Absent, Absent, Absent, Absent, Absent, Absent)

  /** One key of `{ ...defaults, ...config }`: a written key wins, even when written as `undefined`. */
  function Override<T>(f: Field<T>, default: Option<T>): (r: Option<T>)
    ensures f.Absent? ==> r == default
    ensures f.Undefined? ==> r.None?
    ensures f.Given? ==> r == Some(f.value)
  {
    match f
    case Absent => default
    case Undefined => None
    case Given(v) => Some(v)
  }

  /** How one key of the spread comes out: the default when unwritten, nothing when written as `undefined`, else the written value. */
  predicate Merged<T(==)>(f: Field<T>, default: Option<T>, r: Option<T>) {
    && (f.Absent? ==> r == default)
    && (f.Undefined? ==> r.None?)
    && (f.Given? ==> r == Some(f.value))
  }

  /** `{ ...defaultSEO, ...config }`: every key is merged on its own. */
  function Merge(config: PartialConfig): (r: SeoConfig)
    ensures Merged(config.title, DefaultSeo.title, r.title)
    ensures Merged(config.description, DefaultSeo.description, r.description)
    ensures Merged(config.keywords, DefaultSeo.keywords, r.keywords)
    ensures Merged(config.author, DefaultSeo.author, r.author)
    ensures Merged(config.url, DefaultSeo.url, r.url)
    ensures Merged(config.image, DefaultSeo.image, r.image)
    ensures Merged(config.pageType, DefaultSeo.pageType, r.pageType)
    ensures Merged(config.publishedTime, DefaultSeo.publishedTime, r.publishedTime)
    ensures Merged(config.modifiedTime, DefaultSeo.modifiedTime, r.modifiedTime)
    ensures Merged(config.section, DefaultSeo.section, r.section)
    ensures Merged(config.tags, DefaultSeo.tags, r.tags)
    ensures Merged(config.locale, DefaultSeo.locale, r.locale)
    ensures Merged(config.alternateLocales, DefaultSeo.alternateLocales, r.alternateLocales)
  {
    SeoConfig(
      Override(config.title, DefaultSeo.title),
      Override(config.description, DefaultSeo.description),
      Override(config.keywords, DefaultSeo.keywords),
      Override(config.author, DefaultSeo.author),
      Override(config.url, DefaultSeo.url),
      Override(config.image, DefaultSeo.image),
      Override(config.pageType, DefaultSeo.pageType),
      Override(config.publishedTime, DefaultSeo.publishedTime),
      Override(config.modifiedTime, DefaultSeo.modifiedTime),
      Override(config.section, DefaultSeo.section),
      Override(config.tags, DefaultSeo.tags),
      Override(config.locale, DefaultSeo.locale),
      Override(config.alternateLocales, DefaultSeo.alternateLocales))
  }

  /** With nothing written the defaults come through unchanged. */
  lemma MergeEmptyIsDefault()
    ensures Merge(EmptyConfig) == DefaultSeo
  {
  }

  /** A written url or image wins over the default, even when written as `undefined`; an unwritten image keeps the default. */
  lemma MergeKeepsGivenKeys(config: PartialConfig)
    ensures config.url.Given? ==> Merge(config).url == Some(config.url.value)
    ensures config.url.Undefined? ==> Merge(config).url.None?
    ensures config.image.Undefined? ==> Merge(config).image.None?
    ensures config.image.Absent? ==> Merge(config).image == Some(BaseUrl + "/og-image.jpg")
  {
  }

  // ---------------------------------------------------------------------
  // Metadata
  // ---------------------------------------------------------------------

  datatype OgImage = OgImage(url: string, width: int, height: int, alt: Option<string>)

  datatype OpenGraph = OpenGraph(
    title: Option<string>,
    description: Option<string>,
    url: Option<string>,
    siteName: string,
    images: Option<seq<OgImage>>,
    locale: Option<string>,
    pageType: string,
    publishedTime: Option<string>,
    modifiedTime: Option<string>,
    section: Option<string>,
    tags: Option<seq<string>>)

  datatype Twitter = Twitter(card: string, title: Option<string>, description: Option<string>,
                             creator: string, images: Option<seq<string>>)

  datatype Metadata = Metadata(
    title: Option<string>,
    description: Option<string>,
    keywords: Option<string>,
    authors: Option<seq<string>>,
    creator: Option<string>,
    publisher: Option<string>,
    metadataBase: string,
    canonical: Option<string>,
    languages: Option<map<string, string>>,
    openGraph: OpenGraph,
    twitter: Twitter)

  /** `seo.url || "https://vaibhavsuman.dev"`. */
  function SiteBase(seo: SeoConfig): (b: string)
    ensures Truthy(seo.url) ==> b == seo.url.value
    ensures !Truthy(seo.url) ==> b == BaseUrl
  {
    OrElse(seo.url, BaseUrl)
  }

  /** `Object.fromEntries(locales.map(l => [l, base + "/" + l]))`. */
  function Languages(locales: seq<string>, base: string): (m: map<string, string>)
    ensures forall l :: l in m <==> l in locales
    ensures forall l :: l in m ==> m[l] == base + "/" + l
  {
    if locales == [] then map[]
    else Languages(locales[..|locales| - 1], base)[locales[|locales| - 1] := base + "/" + locales[|locales| - 1]]
  }

  /** The images list: present only when the image is truthy. */
  function OgImages(image: Option<string>, alt: Option<string>): (r: Option<seq<OgImage>>)
    ensures r.Some? <==> Truthy(image)
    ensures r.Some? ==> r.value == [OgImage(image.value, 1200, 630, alt)]
  {
    if Truthy(image) then Some([OgImage(image.value, 1200, 630, alt)]) else None
  }

  function TwitterImages(image: Option<string>): (r: Option<seq<string>>)
    ensures r.Some? <==> Truthy(image)
    ensures r.Some? ==> r.value == [image.value]
  {
    if Truthy(image) then Some([image.value]) else None
  }

  function JoinKeywords(keywords: Option<seq<string>>): (r: Option<string>)
    ensures r.Some? <==> keywords.Some?
    ensures r.Some? ==> r.value == Join(keywords.value, ", ")
  {
    match keywords
    case None => None
    case Some(ks) => Some(Join(ks, ", "))
  }

  /** `generateMetadata`. */
  function GenerateMetadata(config: PartialConfig): (md: Metadata)
    ensures var seo := Merge(config);
      && md.title == seo.title
      && md.description == seo.description
      && md.keywords == JoinKeywords(seo.keywords)
      && md.openGraph.title == seo.title && md.twitter.title == seo.title
      && md.openGraph.description == seo.description && md.twitter.description == seo.description
      && md.metadataBase == SiteBase(seo)
      && md.canonical == seo.url
      && (md.languages.Some? <==> seo.alternateLocales.Some?)
      && (md.openGraph.images.Some? <==> Truthy(seo.image))
      && (md.twitter.images.Some? <==> Truthy(seo.image))
      && md.openGraph.pageType == OrElse(seo.pageType, "website")
      && (md.authors.Some? <==> Truthy(seo.author))
  {
    var seo := Merge(config);
    var base := SiteBase(seo);
    Metadata(
      seo.title,
      seo.description,
      JoinKeywords(seo.keywords),
      if Truthy(seo.author) then Some([seo.author.value]) else None,
      seo.author,
      seo.author,
      base,
      seo.url,
      match seo.alternateLocales
      case None => None
      case Some(ls) => Some(Languages(ls, base)),
      OpenGraph(seo.title, seo.description, seo.url, SiteName, OgImages(seo.image, seo.title),
                seo.locale, OrElse(seo.pageType, "website"), seo.publishedTime, seo.modifiedTime,
                seo.section, seo.tags),
      Twitter("summary_large_image", seo.title, seo.description, "@vaibhavsuman5", TwitterImages(seo.image)))
  }

  /** Each alternate locale points at the site base followed by "/" and the locale. */
  lemma LanguagesPointUnderBase(config: PartialConfig, l: string)
    requires Merge(config).alternateLocales.Some? && l in Merge(config).alternateLocales.value
    ensures var md := GenerateMetadata(config);
      md.languages.Some? && l in md.languages.value && md.languages.value[l] == md.metadataBase + "/" + l
  {
  }

  /**
   * The default page carries the default title, the site's own canonical url,
   * the default author, the default image in both cards and the joined
   * default keywords.
   */
  lemma DefaultMetadata()
    ensures var md := GenerateMetadata(EmptyConfig);
      && md.title == Some(DefaultTitle)
      && md.canonical == Some(BaseUrl)
      && md.authors == Some([DefaultAuthor])
      && md.openGraph.images == Some([OgImage(BaseUrl + "/og-image.jpg", 1200, 630, Some(DefaultTitle))])
      && md.twitter.images == Some([BaseUrl + "/og-image.jpg"])
      && md.keywords == Some(Join(DefaultKeywords, ", "))
      && md.metadataBase == BaseUrl
      && md.openGraph.pageType == "website"
  {
    MergeEmptyIsDefault();
  }

  // ---------------------------------------------------------------------
  // Blog-post and project metadata
  // ---------------------------------------------------------------------

  datatype BlogPostInfo = BlogPostInfo(
    title: string, description: string, slug: string, publishedAt: string,
    updatedAt: Option<string>, tags: Option<seq<string>>, author: Option<string>, image: Option<string>)

  datatype ProjectInfo = ProjectInfo(
    title: string, description: string, slug: string, technologies: Option<seq<string>>, image: Option<string>)

  function BlogPostConfig(post: BlogPostInfo): PartialConfig {
    EmptyConfig.(
      title := Given(post.title + " | Vaibhav Suman Blog"),
      description := Given(post.description),
      url := Given(BaseUrl + "/blog/" + post.slug),
      image := FromOption(post.image),
      pageType := Given("article"),
      publishedTime := Given(post.publishedAt),
      modifiedTime := FromOption(post.updatedAt),
      tags := FromOption(post.tags),
      author := FromOption(post.author))
  }

  /** `generateBlogPostMetadata`. */
  function BlogPostMetadata(post: BlogPostInfo): (md: Metadata)
    ensures md.title == Some(post.title + " | Vaibhav Suman Blog")
    ensures md.canonical == Some(BaseUrl + "/blog/" + post.slug)
    ensures md.openGraph.pageType == "article"
    ensures md.openGraph.publishedTime == Some(post.publishedAt)
    ensures md.openGraph.images.Some? <==> Truthy(post.image)
    ensures md.authors.Some? <==> Truthy(post.author)
    ensures md.keywords == Some(Join(DefaultKeywords, ", "))
  {
    GenerateMetadata(BlogPostConfig(post))
  }

  function ProjectConfig(project: ProjectInfo): PartialConfig {
    EmptyConfig.(
      title := Given(project.title + " | Vaibhav Suman Projects"),
      description := Given(project.description),
      url := Given(BaseUrl + "/projects/" + project.slug),
      image := FromOption(project.image),
      keywords := FromOption(project.technologies))
  }

  /** `generateProjectMetadata`. */
  function ProjectMetadata(project: ProjectInfo): (md: Metadata)
    ensures md.title == Some(project.title + " | Vaibhav Suman Projects")
    ensures md.canonical == Some(BaseUrl + "/projects/" + project.slug)
    ensures md.openGraph.pageType == "website"
    ensures md.keywords.Some? <==> project.technologies.Some?
    ensures md.openGraph.images.Some? <==> Truthy(project.image)
    ensures md.authors == Some([DefaultAuthor])
  {
    GenerateMetadata(ProjectConfig(project))
  }

  /**
   * Because the post's missing fields are written as `undefined`, a post
   * without an image or author loses the site's default image and author
   * rather than inheriting them.
   */
  lemma MissingPostFieldsHideDefaults(post: BlogPostInfo)
    requires post.image.None? && post.author.None?
    ensures BlogPostMetadata(post).openGraph.images.None?
    ensures BlogPostMetadata(post).twitter.images.None?
    ensures BlogPostMetadata(post).authors.None? && BlogPostMetadata(post).creator.None?
  {
  }

  // ---------------------------------------------------------------------
  // Structured data
  // ---------------------------------------------------------------------

  datatype Crumb = Crumb(name: string, url: string)
  datatype ListItem = ListItem(position: int, name: string, item: string)

  datatype StructuredDataInput = StructuredDataInput(
    name: Option<string>,
    title: Option<string>,
    description: Option<string>,
    url: Option<string>,
    image: Option<string>,
    author: Option<string>,
    authorName: Option<string>,
    publishedTime: Option<string>,
    modifiedTime: Option<string>,
    readingTime: Option<nat>,
    keywords: Option<seq<string>>,
    wordCount: Option<int>,
    items: Option<seq<Crumb>>,
    jobTitle: Option<string>,
    socialLinks: Option<seq<string>>,
    skills: Option<seq<string>>,
    company: Option<string>)

  datatype StructuredData =
    | Person(name: string, url: string, image: string, jobTitle: string, worksFor: string,
             knowsAbout: seq<string>, sameAs: seq<string>)
    | WebSite(name: string, url: string, description: string, authorName: string, searchTarget: string)
    | Article(headline: Option<string>, summary: Option<string>, picture: Option<string>,
              datePublished: Option<string>, dateModified: Option<string>, authorName: string,
              pageId: string, keywords: Option<string>, wordCount: Option<int>, timeRequired: Option<string>)
    | BreadcrumbList(itemListElement: Option<seq<ListItem>>)

  const DefaultSkills: seq<string> := [
    "Full Stack Development", "Machine Learning", "Artificial Intelligence", "React", "Node.js", "Python", "TypeScript"]

  /** `url.split("/").pop()`: the text after the last '/', or all of it when there is none. */
  function LastSegment(url: string): (r: string)
    ensures |r| <= |url| && r == url[|url| - |r|..]
    ensures '/' !in r
    ensures |r| < |url| ==> url[|url| - |r| - 1] == '/'
  {
    if url == [] then []
    else if url[|url| - 1] == '/' then []
    else LastSegment(url[..|url| - 1]) + [url[|url| - 1]]
  }

  /** `data.url?.split("/").pop() || ""`. */
  function Slug(url: Option<string>): (r: string)
    ensures url.None? ==> r == ""
    ensures url.Some? ==> r == LastSegment(url.value)
  {
    match url
    case None => ""
    case Some(u) => LastSegment(u)
  }

  /** `readingTime ? "PT{n}M" : undefined`: zero and absent give nothing. */
  function TimeRequired(readingTime: Option<nat>): (r: Option<string>)
    ensures r.Some? <==> readingTime.Some? && readingTime.value != 0
    ensures r.Some? ==> r.value == "PT" + NatToString(readingTime.value) + "M"
  {
    match readingTime
    case Some(n) => if n != 0 then Some("PT" + NatToString(n) + "M") else None
    case None => None
  }

  /** `modifiedTime || publishedTime`. */
  function DateModified(modified: Option<string>, published: Option<string>): (r: Option<string>)
    ensures Truthy(modified) ==> r == modified
    ensures !Truthy(modified) ==> r == published
  {
    if Truthy(modified) then modified else published
  }

  function OrElseList(s: Option<seq<string>>, fallback: seq<string>): seq<string> {
    match s
    case Some(v) => v
    case None => fallback
  }

  /** The breadcrumb entries: one per crumb, numbered from 1, each under the site base. */
  function Crumbs(items: seq<Crumb>): (r: seq<ListItem>)
    ensures |r| == |items|
    ensures forall i :: 0 <= i < |items| ==> r[i] == ListItem(i + 1, items[i].name, BaseUrl + items[i].url)
  {
    seq(|items|, i requires 0 <= i < |items| => ListItem(i + 1, items[i].name, BaseUrl + items[i].url))
  }

  /** `generateStructuredData`: None for a kind it does not know. */
  function GenerateStructuredData(kind: string, data: StructuredDataInput): (r: Option<StructuredData>)
    ensures r.Some? <==> kind in {"person", "website", "article", "breadcrumb"}
    ensures kind == "person" ==>
      && r.value.Person?
      && r.value.name == OrElse(data.name, DefaultAuthor)
      && r.value.url == BaseUrl
      && r.value.image == OrElse(data.image, BaseUrl + "/og-image.jpg")
      && r.value.jobTitle == OrElse(data.jobTitle, "Full Stack Developer & AI/ML Engineer")
      && r.value.worksFor == OrElse(data.company, "Freelance")
      && r.value.knowsAbout == (if data.skills.Some? then data.skills.value else DefaultSkills)
      && r.value.sameAs == (if data.socialLinks.Some? then data.socialLinks.value else [])
    ensures kind == "website" ==>
      && r.value.WebSite?
      && r.value.name == OrElse(data.name, SiteName)
      && r.value.url == BaseUrl
      && r.value.description == OrElse(data.description, DefaultDescription)
      && r.value.authorName == OrElse(data.authorName, DefaultAuthor)
      && r.value.searchTarget == BaseUrl + "/search?q={search_term_string}"
    ensures kind == "article" ==>
      && r.value.Article?
      && r.value.headline == data.title
      && r.value.summary == data.description
      && r.value.picture == data.image
      && r.value.datePublished == data.publishedTime
      && r.value.dateModified == DateModified(data.modifiedTime, data.publishedTime)
      && r.value.authorName == OrElse(data.author, DefaultAuthor)
      && r.value.pageId == BaseUrl + "/blog/" + Slug(data.url)
      && r.value.keywords == JoinKeywords(data.keywords)
      && r.value.wordCount == data.wordCount
      && r.value.timeRequired == TimeRequired(data.readingTime)
    ensures kind == "breadcrumb" ==>
      && r.value.BreadcrumbList?
      && (r.value.itemListElement.Some? <==> data.items.Some?)
      && (data.items.Some? ==> r.value.itemListElement.value == Crumbs(data.items.value))
  {
    if kind == "person" then
      Some(Person(OrElse(data.name, DefaultAuthor), BaseUrl, OrElse(data.image, BaseUrl + "/og-image.jpg"),
                  OrElse(data.jobTitle, "Full Stack Developer & AI/ML Engineer"), OrElse(data.company, "Freelance"),
                  OrElseList(data.skills, DefaultSkills), OrElseList(data.socialLinks, [])))
    else if kind == "website" then
      Some(WebSite(OrElse(data.name, SiteName), BaseUrl, OrElse(data.description, DefaultDescription),
                   OrElse(data.authorName, DefaultAuthor), BaseUrl + "/search?q={search_term_string}"))
    else if kind == "article" then
      Some(Article(data.title, data.description, data.image, data.publishedTime,
                   DateModified(data.modifiedTime, data.publishedTime), OrElse(data.author, DefaultAuthor),
                   BaseUrl + "/blog/" + Slug(data.url), JoinKeywords(data.keywords), data.wordCount,
                   TimeRequired(data.readingTime)))
    else if kind == "breadcrumb" then
      Some(BreadcrumbList(match data.items
                          case None => None
                          case Some(items) => Some(Crumbs(items))))
    else None
  }

  /** An article whose url is a blog post's canonical url points its page id back at that url. */
  lemma ArticlePageIdMatchesPostUrl(post: BlogPostInfo, data: StructuredDataInput)
    requires '/' !in post.slug && post.slug != ""
    requires data.url == Some(BaseUrl + "/blog/" + post.slug)
    ensures GenerateStructuredData("article", data).value.pageId == BaseUrl + "/blog/" + post.slug
  {
    PostUrlSlug(post.slug);
  }

  /** The slug read back from a blog post's url is the post's slug. */
  lemma PostUrlSlug(slug: string)
    requires '/' !in slug
    ensures Slug(Some(BaseUrl + "/blog/" + slug)) == slug
  {
    LastSegmentOfPath(BaseUrl + "/blog", slug);
    assert BaseUrl + "/blog/" + slug == (BaseUrl + "/blog") + "/" + slug;
  }

  /** The last segment of `prefix + "/" + s` is `s` when `s` has no '/'. */
  lemma {:induction false} LastSegmentOfPath(prefix: string, s: string)
    requires '/' !in s
    ensures LastSegment(prefix + "/" + s) == s
    decreases |s|
  {
    if s == [] {
      assert (prefix + "/" + s)[|prefix + "/" + s| - 1] == '/';
    } else {
      var u := prefix + "/" + s;
      assert u[..|u| - 1] == prefix + "/" + s[..|s| - 1];
      assert '/' !in s[..|s| - 1] by {
        assert forall c :: c in s[..|s| - 1] ==> c in s;
      }
      LastSegmentOfPath(prefix, s[..|s| - 1]);
      assert s == s[..|s| - 1] + [s[|s| - 1]];
    }
  }

  // ---------------------------------------------------------------------
  // Static sitemap entries
  // ---------------------------------------------------------------------

  /** A sitemap entry; the priority is in tenths (1 is 10, 0.8 is 8). */
  datatype SitemapEntry = SitemapEntry(url: string, lastModified: int, changeFrequency: string, priorityTenths: int)

  /** `generateSitemapUrls`: the five static pages, all stamped with the current time. */
  function SitemapUrls(now: int): (r: seq<SitemapEntry>)
    ensures |r| == 5
    ensures forall i :: 0 <= i < |r| ==> r[i].lastModified == now && |r[i].url| >= |BaseUrl| && r[i].url[..|BaseUrl|] == BaseUrl
    ensures r[0].url == BaseUrl && r[0].priorityTenths == 10
  {
    [SitemapEntry(BaseUrl, now, "monthly", 10),
     SitemapEntry(BaseUrl + "/about", now, "monthly", 8),
     SitemapEntry(BaseUrl + "/projects", now, "weekly", 9),
     SitemapEntry(BaseUrl + "/blog", now, "weekly", 9),
     SitemapEntry(BaseUrl + "/contact", now, "monthly", 7)]
  }
}
