/**
 * Page metadata and configuration check of lib/seo.ts. The site configuration
 * is a record (the shipped one is `SiteConfig`), so that the check can be
 * stated for every configuration and not only the shipped one.
 */
module Seo {
  import opened JsValues
  import opened Strings

  /** The fields of `SEO_CONFIG` that metadata generation and validation read. */
  datatype SeoConfig = SeoConfig(
    siteName: string,
    siteUrl: string,
    defaultTitle: string,
    defaultDescription: string,
    keywords: seq<string>,
    author: string,
    twitterHandle: string,
    linkedinProfile: string,
    jobTitle: string)

  const SiteConfig := SeoConfig(
    "Atharv Tare - Portfolio",
    "https://atharv.work",
    "Atharv Tare - Full Stack Developer Portfolio",
    "Full Stack Developer with 3+ years of experience building scalable applications. Expert in Node.js, React, AWS, and cloud architecture. View my portfolio of projects and professional experience.",
    ["Developer Portfolio", "Software Engineer Portfolio", "Full Stack Developer Portfolio",
     "Node.js Developer", "React Developer", "AWS Developer", "Backend Developer",
     "Frontend Developer", "JavaScript Developer", "TypeScript Developer", "MongoDB Developer",
     "PostgreSQL Developer", "Email Automation Developer", "Data Extraction Specialist",
     "Custom Email Solutions", "LESS Developer", "Kubernetes Developer", "Docker Developer",
     "Microservices Developer", "API Developer", "Cloud Developer", "DevOps Engineer",
     "Software Development Engineer", "Web Developer", "Portfolio Website", "Developer Resume",
     "Tech Portfolio", "Programming Portfolio", "Code Portfolio", "Software Engineer Resume",
     "Full Stack Engineer", "Backend Engineer", "Frontend Engineer", "Cloud Engineer",
     "DevOps Engineer Portfolio"],
    "Atharv Tare",
    "@atharvtare",
    "https://linkedin.com/in/atharv-tare",
    "Software Development Engineer I")

  datatype Author = Author(name: string, url: string)

  datatype OgImage = OgImage(url: string, width: nat, height: nat, alt: string)

  datatype OpenGraph = OpenGraph(
    kind: string,
    locale: string,
    url: string,
    siteName: string,
    title: string,
    description: string,
    images: seq<OgImage>)

  datatype Twitter = Twitter(
    card: string,
    site: string,
    creator: string,
    title: string,
    description: string,
    images: seq<string>)

  /** The non-constant part of the `Metadata` record `generateMetadata` returns. */
  datatype Metadata = Metadata(
    title: string,
    description: string,
    keywords: string,
    authors: seq<Author>,
    creator: string,
    publisher: string,
    metadataBase: string,
    canonical: string,
    openGraph: OpenGraph,
    twitter: Twitter)

  /** `s || ''` for an optional string. */
  function OrEmpty(o: Option<string>): string {
    match o
    case None => ""
    case Some(s) => s
  }

  /** The message of the `TypeError` the `URL` constructor throws on a string it rejects. */
  const InvalidUrlMessage := "Invalid URL"

  /**
   * `generateMetadata(pageTitle?, pageDescription?, pagePath?)`. The library
   * function `encodeURIComponent` is the parameter `encode`; whether the
   * `URL` constructor accepts a string is the parameter `parsesAsUrl`. The
   * metadata base is built from the site url, so a site url the constructor
   * rejects makes the whole call throw.
   */
  function GenerateMetadata(c: SeoConfig, encode: string -> string, parsesAsUrl: string -> bool,
                            pageTitle: Option<string>, pageDescription: Option<string>, pagePath: Option<string>): (r: Result<Metadata>)
    ensures r.Thrown? <==> !parsesAsUrl(c.siteUrl)
    ensures r.Thrown? ==> r.message == InvalidUrlMessage
    ensures r.Ok? ==> var m := r.value;
      && m.title == (if Falsy(pageTitle) then c.defaultTitle else pageTitle.value + " | " + c.siteName)
      && m.description == (if Falsy(pageDescription) then c.defaultDescription else pageDescription.value)
      && m.metadataBase == c.siteUrl
      && m.canonical == c.siteUrl + OrEmpty(pagePath) && m.openGraph.url == m.canonical
      && m.openGraph.title == m.title && m.twitter.title == m.title
      && m.openGraph.description == m.description && m.twitter.description == m.description
      && |m.openGraph.images| == 1
      && m.openGraph.images[0].url == c.siteUrl + "/api/og?title=" + encode(m.title)
      && m.twitter.images == [m.openGraph.images[0].url]
      && m.keywords == Join(c.keywords, ", ")
      && m.creator == c.author && m.publisher == c.author && m.authors == [Author(c.author, c.linkedinProfile)]
  {
    var title := if Falsy(pageTitle) then c.defaultTitle else pageTitle.value + " | " + c.siteName;
    var description := if Falsy(pageDescription) then c.defaultDescription else pageDescription.value;
    var url := c.siteUrl + OrEmpty(pagePath);
    var imageUrl := c.siteUrl + "/api/og?title=" + encode(title);
    if !parsesAsUrl(c.siteUrl) then Thrown(InvalidUrlMessage)
    else Ok(Metadata(
      title,
      description,
      Join(c.keywords, ", "),
      [Author(c.author, c.linkedinProfile)],
      c.author,
      c.author,
      c.siteUrl,
      url,
      OpenGraph("website", "en_US", url, c.siteName, title, description,
                [OgImage(imageUrl, 1200, 630, c.author + " - " + c.jobTitle)]),
      Twitter("summary_large_image", c.twitterHandle, c.twitterHandle, title, description, [imageUrl])))
  }

  /** A page title comes first, followed by a separator and the site name. */
  lemma PageTitleShape(c: SeoConfig, encode: string -> string, parsesAsUrl: string -> bool,
                       t: string, d: Option<string>, p: Option<string>)
    requires t != ""
    ensures var r := GenerateMetadata(c, encode, parsesAsUrl, Some(t), d, p);
      r.Ok? ==> r.value.title[..|t|] == t && r.value.title[|t|..] == " | " + c.siteName
  {
  }

  /** One more configured keyword adds a separator and that keyword to the joined list. */
  lemma KeywordsJoin(c: SeoConfig, encode: string -> string, parsesAsUrl: string -> bool, more: string)
    requires |c.keywords| > 0
    ensures var r0, r1 := GenerateMetadata(c, encode, parsesAsUrl, None, None, None),
                          GenerateMetadata(c.(keywords := c.keywords + [more]), encode, parsesAsUrl, None, None, None);
      && (r1.Ok? <==> r0.Ok?)
      && (r1.Ok? ==> r1.value.keywords == r0.value.keywords + ", " + more)
  {
    JoinSnoc(c.keywords, more, ", ");
  }

  // ---------------------------------------------------------------------------
  // validateSEOConfig

  /** The keys of `SEO_CONFIG` that `validateSEOConfig` requires. */
  datatype ConfigKey = SiteName | SiteUrl | DefaultTitle | DefaultDescription | AuthorKey

  const RequiredKeys := [SiteName, SiteUrl, DefaultTitle, DefaultDescription, AuthorKey]

  /** The property name of a key, as the error message spells it. */
  function KeyName(k: ConfigKey): string {
    match k
    case SiteName => "siteName"
    case SiteUrl => "siteUrl"
    case DefaultTitle => "defaultTitle"
    case DefaultDescription => "defaultDescription"
    case AuthorKey => "author"
  }

  /** The property names of a list of keys. */
  function KeyNames(keys: seq<ConfigKey>): (r: seq<string>)
    ensures |r| == |keys| && forall i :: 0 <= i < |keys| ==> r[i] == KeyName(keys[i])
  {
    if |keys| == 0 then [] else [KeyName(keys[0])] + KeyNames(keys[1..])
  }

  /** `SEO_CONFIG[key]` */
  function Field(c: SeoConfig, key: ConfigKey): string {
    match key
    case SiteName => c.siteName
    case SiteUrl => c.siteUrl
    case DefaultTitle => c.defaultTitle
    case DefaultDescription => c.defaultDescription
    case AuthorKey => c.author
  }

  /** `xs` holds some of the elements of `ys`, in the same order. */
  predicate Subsequence(xs: seq<ConfigKey>, ys: seq<ConfigKey>) {
    if |xs| == 0 then true
    else if |ys| == 0 then false
    else if xs[0] == ys[0] then Subsequence(xs[1..], ys[1..])
    else Subsequence(xs, ys[1..])
  }

  /** The keys whose configured value is empty, in the order given. */
  function MissingKeys(c: SeoConfig, keys: seq<ConfigKey>): (r: seq<ConfigKey>)
    ensures forall k :: k in r <==> k in keys && Field(c, k) == ""
    ensures Subsequence(r, keys)
  {
    if |keys| == 0 then []
    else
      var rest := MissingKeys(c, keys[1..]);
      assert forall k :: k in keys <==> k == keys[0] || k in keys[1..];
      if Field(c, keys[0]) == "" then [keys[0]] + rest else rest
  }

  const MissingMessagePrefix := "Missing required SEO configuration: "

  /** `validateSEOConfig()`: `true`, or a thrown error naming the empty required keys in order. */
  function ValidateSeoConfig(c: SeoConfig): (r: Result<bool>)
    ensures r.Ok? <==> forall k :: k in RequiredKeys ==> Field(c, k) != ""
    ensures r.Ok? ==> r.value
    ensures r.Thrown? ==> r.message == MissingMessagePrefix + Join(KeyNames(MissingKeys(c, RequiredKeys)), ", ")
    ensures r.Thrown? ==> |MissingKeys(c, RequiredKeys)| > 0
  {
    var missing := MissingKeys(c, RequiredKeys);
    if |missing| > 0 then
      assert missing[0] in missing;
      Thrown(MissingMessagePrefix + Join(KeyNames(missing), ", "))
    else
      assert forall k :: k in RequiredKeys ==> k !in missing;
      Ok(true)
  }

  /** The shipped configuration passes the check. */
  lemma SiteConfigValid()
    ensures ValidateSeoConfig(SiteConfig) == Ok(true)
  {
    var c := SiteConfig;
    assert c.siteName != "" && c.siteUrl != "" && c.defaultTitle != "";
    assert c.defaultDescription != "" && c.author != "";
  }

  /** With only the url and the author empty, exactly those two keys are missing, in that order. */
  lemma MissingUrlAndAuthorKeys(c: SeoConfig)
    requires c.siteName != "" && c.defaultTitle != "" && c.defaultDescription != ""
    requires c.siteUrl == "" && c.author == ""
    ensures MissingKeys(c, RequiredKeys) == [SiteUrl, AuthorKey]
  {
    var tail := [AuthorKey];
    assert MissingKeys(c, tail) == [AuthorKey] by {
      assert tail[1..] == [];
    }
    assert MissingKeys(c, [DefaultDescription] + tail) == [AuthorKey] by {
      assert ([DefaultDescription] + tail)[1..] == tail;
    }
    assert MissingKeys(c, [DefaultTitle, DefaultDescription] + tail) == [AuthorKey] by {
      assert ([DefaultTitle, DefaultDescription] + tail)[1..] == [DefaultDescription] + tail;
    }
    assert MissingKeys(c, [SiteUrl, DefaultTitle, DefaultDescription] + tail) == [SiteUrl, AuthorKey] by {
      assert ([SiteUrl, DefaultTitle, DefaultDescription] + tail)[1..] == [DefaultTitle, DefaultDescription] + tail;
    }
    assert RequiredKeys[1..] == [SiteUrl, DefaultTitle, DefaultDescription] + tail;
  }

  /** Missing keys are reported in the order of the required list. */
  lemma MissingUrlAndAuthor(c: SeoConfig)
    requires c.siteName != "" && c.defaultTitle != "" && c.defaultDescription != ""
    requires c.siteUrl == "" && c.author == ""
    ensures ValidateSeoConfig(c) == Thrown(MissingMessagePrefix + "siteUrl, author")
  {
    MissingUrlAndAuthorKeys(c);
    var missing := MissingKeys(c, RequiredKeys);
    var names := KeyNames(missing);
    assert names == ["siteUrl", "author"] by {
      assert names[0] == KeyName(missing[0]) && names[1] == KeyName(missing[1]);
    }
    JoinPair("siteUrl", "author", ", ");
    assert ValidateSeoConfig(c).Thrown?;
  }
}
