# SEO metadata resolution of a portfolio site, in Dafny

This project models the one piece of logic in the site's SEO component
(`src/components/atoms/SEO.jsx`). It has two parts.

- `truncate(n, useWordBoundary)` shortens the page description. A string of
  at most `n` characters is returned unchanged. A longer one keeps its first
  `n - 1` characters. In word-boundary mode those are cut back to just before
  their last space. Then `"..."` is appended.
- The render callback resolves each head field. Title, description and
  canonical slug come from the page's `project` record when the value there
  is truthy, and otherwise from the site defaults (`dataYaml`). The image
  comes from the project whenever the project has an image object. The
  description is truncated to 320 with word boundaries. The image path and
  the slug are both put behind the site URL.

The two JavaScript built-ins the helper uses are modelled with their edge
cases in module `JsString` (`js_string.dfy`). `substr(0, len)` clamps a
negative length to zero. `lastIndexOf` answers -1 when there is no match.
Truncation and resolution live in module `Seo` (`seo.dfy`). Both are pure
functions. The JavaScript helper runs with `this` bound to the string by
`.apply`; here the string is the first parameter. The build-time query
result is passed in as two records, `SiteDefaults` and `PageOverride`.
Optional fields are `Option<string>`, and JavaScript truthiness is the
predicate `Truthy` (absent or `""` is false).

Behaviour of the code that the model keeps, and that a reader might not
expect:

- In word-boundary mode, a long string with no space among the kept
  characters gives `"..."` alone, because `substr(0, -1)` is empty. A last
  space at position 0 among the kept characters also gives `"..."`.
- Title, description and slug are chosen by truthiness, so an empty override
  falls back to the default just as an absent one does.
- The image path is always put behind the site URL, whatever the path holds.
- Any present project image object wins, even with an empty path.
- The limit counts the kept characters before the three dots are added, so
  the resolved description can have 321 characters (`Seo.ResolvedShape`),
  and plain mode gives `n + 2` characters (`Seo.TruncatePlainLength`).
- When the project has no truthy description, a missing site default
  description makes `truncate.apply` throw at `this.length`. The model takes
  every default as a string.

## Model

| member | source | states |
|---|---|---|
| `JsString.SubstrFromStart` | src/components/atoms/SEO.jsx:10 | `substr(0, len)` gives a prefix of the string whose length is `len` clamped to `[0, |s|]`: empty for a negative length, the whole string past the end |
| `JsString.LastIndexOf` | src/components/atoms/SEO.jsx:13 | the result lies in `[-1, |s|)`; a non-negative result holds the character and no later position does; the result is -1 exactly when the character does not occur |
| `Seo.CutAtLastSpace` | src/components/atoms/SEO.jsx:13 | `w.substr(0, w.lastIndexOf(' '))` is a proper prefix of a non-empty `w` that stops right before the last space of `w`, and is empty when `w` has no space |
| `Seo.Truncate` | src/components/atoms/SEO.jsx:6-16 | a string no longer than `n` is returned unchanged in either mode; a longer one always ends in `"..."`; plain mode gives exactly the first `n - 1` characters (none when `n <= 1`) plus `"..."`; word-boundary mode gives a prefix of at most `n - 2` characters (none when `n <= 1`) plus `"..."`, which stops at the last space among the first `n - 1` characters, and is `"..."` alone when there is no space there |
| `Seo.TruncatePlainLength` | src/components/atoms/SEO.jsx:10-14 | for `1 <= n < |s|`, plain mode gives a result of exactly `n + 2` characters |
| `Seo.TruncateAtWordExample` | src/components/atoms/SEO.jsx:10-13 | `"The quick brown fox"` truncated to 10 at word boundaries is `"The..."` |
| `Seo.TruncatePlainExample` | src/components/atoms/SEO.jsx:10-14 | `"abcdefghij"` truncated to 5 in plain mode is `"abcd..."` |
| `Seo.TruncateNoSpaceExample` | src/components/atoms/SEO.jsx:13 | `"abcdefghij"` truncated to 5 at word boundaries is `"..."`, not `"abcd..."` |
| `Seo.Truthy` | src/components/atoms/SEO.jsx:48-56 | an optional string is falsy exactly when it is absent or empty, as JavaScript treats `project.title`, `project.description` and `project.slug`; the property it supports is `Seo.EmptyStringIsAbsent` |
| `Seo.DescriptionSource` | src/components/atoms/SEO.jsx:50-52 | the text handed to `truncate` is the project description when truthy, else the site description; the property it supports is `Seo.EmptyStringIsAbsent` (an empty project description falls back like an absent one) |
| `Seo.ImagePath` | src/components/atoms/SEO.jsx:53-55 | the image path is the project's whenever the project has an image object, else the site's default path; the property it supports is `Seo.EmptyImagePathOverrides` (an image object with an empty path still wins) |
| `Seo.Resolve` | src/components/atoms/SEO.jsx:46-76 | the title is the project's when truthy, else the site's; the tagline is the site's; the description is the truthy project description, else the site's, truncated to 320 at word boundaries; the image URL is the site URL followed by the project image path when the project has an image, else by the default image path; the canonical URL is the site URL followed by a truthy slug, else the site URL alone |
| `Seo.ResolveDefaults` | src/components/atoms/SEO.jsx:46-56 | with the default empty `project`, every field comes from the site defaults, the description truncated |
| `Seo.ResolveTitleOnly` | src/components/atoms/SEO.jsx:48 | a project carrying only a non-empty title changes the title and nothing else |
| `Seo.EmptyStringIsAbsent` | src/components/atoms/SEO.jsx:48-56 | an empty title, description or slug gives the same metadata as an absent one |
| `Seo.EmptyImagePathOverrides` | src/components/atoms/SEO.jsx:53-55 | a project image object with an empty path still replaces a non-empty default image |
| `Seo.ResolvedShape` | src/components/atoms/SEO.jsx:50-76 | the image and canonical URLs start with the site URL; the description is the chosen text when it has at most 320 characters, else a prefix of it followed by `"..."` with at most 321 characters in all |
| `Seo.ResolvedNonEmpty` | src/components/atoms/SEO.jsx:46-56 | when the site title, tagline, description and URL are non-empty, every resolved field is non-empty |

## Left out

- The Helmet rendering of the head tags (src/components/atoms/SEO.jsx:58-79): it is declarative markup for a library that is not part of this model. The model stops at the values those tags receive, `Seo.Metadata`.
- The lower-cased title templates (src/components/atoms/SEO.jsx:60-61): they depend on Unicode case mapping and are presentation only.
- The GraphQL `StaticQuery` loading of `dataYaml` (src/components/atoms/SEO.jsx:18-45): it is build-time I/O. The loaded records are parameters.
- The nested image objects `img.childImageSharp.twitterImage.src` and `img.childImageSharp.resize.src`: the model keeps only the final path. The TypeError thrown when an intermediate object is missing is not modelled.
- Missing site defaults, which behave differently per field in the code:
  - A missing `url` never throws. It is interpolated as the text `"undefined"` or `"null"` (src/components/atoms/SEO.jsx:56, 69, 76), or passed on as itself when there is no truthy slug.
  - A missing `title` or `tagline` throws only in the lower-cased templates (src/components/atoms/SEO.jsx:60-61), which are left out. For `title`, that happens only when `project.title` is falsy.
  - A missing `description` throws at `this.length` (src/components/atoms/SEO.jsx:7), but only when `project.description` is falsy (src/components/atoms/SEO.jsx:52).
  - A missing default image throws only when the project has no image object (src/components/atoms/SEO.jsx:55).
  - None of these cases is modelled: the model takes every default as a string.
- PropTypes and the default `project` prop (src/components/atoms/SEO.jsx:84-90): runtime prop checking. The empty default appears only as `Seo.NoOverride`.
- UTF-16 code units: JavaScript strings are sequences of them, while a Dafny `char` is a Unicode scalar value. The model covers strings of Basic Multilingual Plane characters outside the surrogate range only. It does not model a character beyond that plane counting as two in `this.length`, nor `substr` splitting such a pair and leaving a lone surrogate.
- The number `n` is taken as an integer.
- The footer component (src/components/organisms/Footer.jsx): its only computation reads the system clock for the copyright year and places it in markup.
