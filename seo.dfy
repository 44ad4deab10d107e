/**
  The metadata logic of the site's SEO component: the `truncate` helper that
  shortens the page description, and the resolution of each head field from
  the page's own `project` record or, failing that, from the site-wide
  defaults (`dataYaml`).

  The component calls `truncate` with `this` bound to the string; here the
  string is an ordinary first parameter. The build-time query that supplies
  both records is not modelled: the records are parameters.
 */
module Seo {
  import opened JsString

  const Ellipsis: string := "..."

  /** Length of the kept part `s.substr(0, n - 1)` when `s` is longer than `n`. */
  function KeptLength(n: int): nat
  {
    if n >= 1 then n - 1 else 0
  }

  /** `w.substr(0, w.lastIndexOf(' '))`: `w` cut back to just before its last
      space, or to nothing when it holds no space. */
  function CutAtLastSpace(w: string): (r: string)
    ensures r <= w
    ensures |r| <= if |w| == 0 then 0 else |w| - 1
    ensures ' ' in w ==> w[|r|] == ' ' && forall i :: |r| < i < |w| ==> w[i] != ' '
    ensures ' ' !in w ==> r == ""
  {
    SubstrFromStart(w, LastIndexOf(w, ' '))
  }

  /** `truncate.apply(s, [n, useWordBoundary])`.
      A string of at most `n` characters comes back unchanged. A longer one
      keeps its first `n - 1` characters, in word-boundary mode cut back to
      just before the last space among them (to nothing when there is none,
      since `lastIndexOf` then answers -1), and gets "..." appended. */
  function Truncate(s: string, n: int, useWordBoundary: bool): (r: string)
    ensures |s| <= n ==> r == s
    ensures n < |s| ==> 3 <= |r| && r[|r| - 3..] == Ellipsis
    ensures n < |s| && !useWordBoundary ==> r == s[..KeptLength(n)] + Ellipsis
    ensures n < |s| && useWordBoundary ==> |r| <= if 2 <= n then n + 1 else 3
    ensures n < |s| && useWordBoundary ==> r == s[..|r| - 3] + Ellipsis
    ensures n < |s| && useWordBoundary && ' ' in s[..KeptLength(n)] ==>
      s[|r| - 3] == ' ' && forall i :: |r| - 3 < i < KeptLength(n) ==> s[i] != ' '
    ensures n < |s| && useWordBoundary && ' ' !in s[..KeptLength(n)] ==> r == Ellipsis
  {
    if |s| <= n then s
    else
      var sub := SubstrFromStart(s, n - 1);
      assert sub == s[..KeptLength(n)];
      if useWordBoundary then
        var cut := CutAtLastSpace(sub);
        assert cut == s[..|cut|];
        assert ' ' in sub ==> s[|cut|] == sub[|cut|];
        cut + Ellipsis
      else
        sub + Ellipsis
  }

  /** Word-boundary mode: "The quick brown fox" keeps "The quick", whose
      last space is at position 3. */
  lemma TruncateAtWordExample()
    ensures Truncate("The quick brown fox", 10, true) == "The..."
  {
    var s := "The quick brown fox";
    var r := Truncate(s, 10, true);
    assert s[..9] == "The quick" && s[3] == ' ';
    var k := |r| - 3;
    assert s[k] == ' ' && k <= 8;
    assert k == 3;
  }

  /** In plain mode a truncated string is two characters longer than the
      limit: `n - 1` kept characters and three dots. */
  lemma TruncatePlainLength(s: string, n: int)
    requires 1 <= n < |s|
    ensures |Truncate(s, n, false)| == n + 2
  {
  }

  /** Plain mode keeps n - 1 characters. */
  lemma TruncatePlainExample()
    ensures Truncate("abcdefghij", 5, false) == "abcd..."
  {
  }

  /** Word-boundary mode with no space among the kept characters leaves only
      the ellipsis. */
  lemma TruncateNoSpaceExample()
    ensures Truncate("abcdefghij", 5, true) == "..."
  {
  }

  datatype Option<T> = None | Some(value: T)

  /** JavaScript truthiness of an optional string: absent and "" are false. */
  function Truthy(o: Option<string>): (b: bool)
    ensures o.None? ==> !b
    ensures o.Some? ==> (b <==> |o.value| > 0)
  {
    o.Some? && o.value != ""
  }

  /** The site-wide defaults read from the data file. `image` is the path of
      the default sharing image (`img.childImageSharp.resize.src`). */
  datatype SiteDefaults = SiteDefaults(
    title: string,
    tagline: string,
    description: string,
    url: string,
    image: string)

  /** The page's `project` record, every field optional. `image` is present
      when the project has an `img` object, and then holds its
      `childImageSharp.twitterImage.src`. */
  datatype PageOverride = PageOverride(
    title: Option<string>,
    description: Option<string>,
    image: Option<string>,
    slug: Option<string>)

  /** The component's default `project`, the empty object. */
  const NoOverride := PageOverride(None, None, None, None)

  /** The values the component writes into the document head. `imageUrl`
      goes into both image tags, `canonicalUrl` into the canonical link and
      `og:url`. */
  datatype Metadata = Metadata(
    title: string,
    tagline: string,
    description: string,
    imageUrl: string,
    canonicalUrl: string)

  const DescriptionLimit := 320

  /** The description text before truncation: the page's when truthy, else
      the site's. */
  function DescriptionSource(project: PageOverride, meta: SiteDefaults): (d: string)
    ensures Truthy(project.description) ==> d == project.description.value
    ensures !Truthy(project.description) ==> d == meta.description
  {
    if Truthy(project.description) then project.description.value else meta.description
  }

  /** The image path before the site URL is put in front: the project's when
      it has an image object at all (truthiness of an object, not of the
      path), else the site's default. */
  function ImagePath(project: PageOverride, meta: SiteDefaults): (p: string)
    ensures project.image.Some? ==> p == project.image.value
    ensures project.image == None ==> p == meta.image
  {
    if project.image.Some? then project.image.value else meta.image
  }

  /** The field resolution of the render callback. */
  function Resolve(project: PageOverride, meta: SiteDefaults): (m: Metadata)
    ensures m.title == if Truthy(project.title) then project.title.value else meta.title
    ensures m.tagline == meta.tagline
    ensures m.description == Truncate(DescriptionSource(project, meta), DescriptionLimit, true)
    ensures m.imageUrl == meta.url + ImagePath(project, meta)
    ensures Truthy(project.slug) ==> m.canonicalUrl == meta.url + project.slug.value
    ensures !Truthy(project.slug) ==> m.canonicalUrl == meta.url
  {
    var title := if Truthy(project.title) then project.title.value else meta.title;
    var description := Truncate(DescriptionSource(project, meta), DescriptionLimit, true);
    var image := ImagePath(project, meta);
    var url := if Truthy(project.slug) then meta.url + project.slug.value else meta.url;
    Metadata(title, meta.tagline, description, meta.url + image, url)
  }

  /** With no override every field comes from the defaults, the description
      truncated. */
  lemma ResolveDefaults(meta: SiteDefaults)
    ensures Resolve(NoOverride, meta) ==
      Metadata(meta.title, meta.tagline, Truncate(meta.description, DescriptionLimit, true),
               meta.url + meta.image, meta.url)
  {
  }

  /** Overriding only the title changes only the title. */
  lemma ResolveTitleOnly(meta: SiteDefaults, t: string)
    requires t != ""
    ensures Resolve(NoOverride.(title := Some(t)), meta) ==
      Resolve(NoOverride, meta).(title := t)
  {
  }

  /** Title, description and slug are chosen by truthiness, so an empty string
      is the same as no value. */
  lemma EmptyStringIsAbsent(project: PageOverride, meta: SiteDefaults)
    ensures Resolve(project.(title := Some("")), meta) == Resolve(project.(title := None), meta)
    ensures Resolve(project.(description := Some("")), meta) == Resolve(project.(description := None), meta)
    ensures Resolve(project.(slug := Some("")), meta) == Resolve(project.(slug := None), meta)
  {
    assert !Truthy(Some("")) && !Truthy(None);
    var t1, t2 := project.(title := Some("")), project.(title := None);
    assert Resolve(t1, meta).title == Resolve(t2, meta).title == meta.title;
    var d1, d2 := project.(description := Some("")), project.(description := None);
    assert DescriptionSource(d1, meta) == DescriptionSource(d2, meta) == meta.description;
    var s1, s2 := project.(slug := Some("")), project.(slug := None);
    assert Resolve(s1, meta).canonicalUrl == Resolve(s2, meta).canonicalUrl == meta.url;
  }

  /** The image is chosen by the presence of the image object, so an image
      with an empty path still replaces the default one. */
  lemma EmptyImagePathOverrides(project: PageOverride, meta: SiteDefaults)
    requires meta.image != ""
    ensures Resolve(project.(image := Some("")), meta).imageUrl == meta.url
    ensures Resolve(project.(image := Some("")), meta) != Resolve(project.(image := None), meta)
  {
  }

  /** Both URLs start with the site URL, and the description is the source
      text itself when it fits, else a prefix of it of at most 318 characters
      followed by "..."; so it is at most 321 characters long, one more than
      the limit passed to `truncate`. */
  lemma ResolvedShape(project: PageOverride, meta: SiteDefaults)
    ensures meta.url <= Resolve(project, meta).imageUrl
    ensures meta.url <= Resolve(project, meta).canonicalUrl
    ensures var d, src := Resolve(project, meta).description, DescriptionSource(project, meta);
      if |src| <= DescriptionLimit then d == src
      else |d| <= DescriptionLimit + 1 && d == src[..|d| - 3] + Ellipsis
  {
  }

  /** When every default is non-empty, every resolved field is non-empty. */
  lemma ResolvedNonEmpty(project: PageOverride, meta: SiteDefaults)
    requires meta.title != "" && meta.tagline != "" && meta.description != ""
    requires meta.url != ""
    ensures var m := Resolve(project, meta);
      m.title != "" && m.tagline != "" && m.description != "" && m.imageUrl != "" && m.canonicalUrl != ""
  {
  }
}
