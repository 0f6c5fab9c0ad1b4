# EasyAuth route table, modelled in Dafny

The EasyAuth documentation site builds its navigation from one hand-written
table, `ROUTES`, in `lib/routes-config.ts`. The table is a list of
categories. Each category has a title, a base href segment such as
`getting-started`, and an ordered list of `{title, href}` links whose hrefs are
suffixes such as `/introduction`. The module flattens the table into
`page_routes`, one ordered list of pages. It maps every link to
`{title: link.title, href: category.href + link.href}` and then joins the
per-category lists with `.flat()`. The documentation navigation walks this
list. The landing page's "get started" link takes its first entry.

`routes_config.dfy` holds one module, `RoutesConfig`, that models this file:

- `Link` and `Category` are datatypes over `string`. `Link` is used both for a
  table leaf and for a flattened page, because both have the `{title, href}`
  shape.
- `CategoryPages` is the inner `items.map(...)`. `PageRoutes` is the outer
  `map(...).flat()`, written as a recursive function over `seq<Category>`.
- `TotalItems` sums the links of all categories. `Offset(routes, i)` is the
  number of links in the categories before `i`.
- `Origin` maps a position in the flattened list back to the category and the
  link that produced it.
- `FirstPage` is the entry that the "get started" link reads.
- `GETTING_STARTED`, `JWT_AUTH`, `SOCIAL_AUTH` and `ROUTES` are the concrete
  table, written out entry by entry.

The model proves these properties of the flattening:

- The number of pages equals the total number of links.
- A page's title is the link's title, and its href is the category href
  followed directly by the link href, with no separator added.
- Category order and link order are both kept.
- Flattening distributes over concatenation of tables.
- A category with no links contributes nothing.
- Category titles play no part in the result.
- If the table is well formed, no two pages share an href. Well formed means
  that category hrefs have no `/`, link hrefs start with `/`, category hrefs
  are distinct, and link hrefs within one category are distinct.

For the concrete table, the model proves the exact seven pages, the first
page, and that all hrefs are pairwise distinct.

## Model

| member | source | states |
|---|---|---|
| RoutesConfig.CategoryPages | lib/routes-config.ts:31-35 | one page per link, in link order; page k has link k's title and the category href followed by link k's href |
| RoutesConfig.PageRoutes | lib/routes-config.ts:30-37 | the flattened list has exactly as many pages as all categories have links together |
| RoutesConfig.PageRoutesAt | lib/routes-config.ts:30-37 | link j of category i becomes the page at position Offset(i) + j, with the link's title and href category.href + link.href |
| RoutesConfig.Origin | lib/routes-config.ts:30-37 | every position of the flattened list comes from a real category i and link j, sits at Offset(i) + j and carries that link's title and concatenated href |
| RoutesConfig.PageRoutesOrder | lib/routes-config.ts:30-37 | order is kept: pages of an earlier category come before pages of a later one, and within a category pages follow link order |
| RoutesConfig.PageRoutesAppend | lib/routes-config.ts:30-37 | flattening the concatenation of two tables gives the concatenation of their flattenings |
| RoutesConfig.EmptyCategoryContributesNothing | lib/routes-config.ts:30-37 | inserting a category that has no links, anywhere in a table, leaves the flattened list unchanged |
| RoutesConfig.AllEmptyCategories | lib/routes-config.ts:30-37 | a table whose categories all lack links, and in particular the empty table, flattens to the empty list |
| RoutesConfig.CategoryTitleIrrelevant | lib/routes-config.ts:30-33 | two tables that agree on every category's href and links flatten alike, because only href and items are destructured |
| RoutesConfig.FirstPage | lib/routes-config.ts:30-37 | the "get started" entry is absent exactly when the table has no links, and otherwise it is the first flattened page |
| RoutesConfig.FirstPageOrigin | lib/routes-config.ts:30-37 | the first page comes from the first link of the first category that has links |
| RoutesConfig.SplitHref | lib/routes-config.ts:34 | a slash-free category href followed by a slash-led link href can be split back uniquely into the two |
| RoutesConfig.HrefDeterminesPosition | lib/routes-config.ts:30-37 | in a well-formed table, two pages with the same href are at the same position |
| RoutesConfig.DistinctHrefs | lib/routes-config.ts:30-37 | a well-formed table flattens to pages with pairwise distinct hrefs |
| RoutesConfig.GettingStartedPages | lib/routes-config.ts:3-11 | the "Getting Started" category yields its three pages under getting-started, in order |
| RoutesConfig.JwtAuthPages | lib/routes-config.ts:12-19 | the "JWT Auth" category yields its two pages under jwtAuth, in order |
| RoutesConfig.SocialAuthPages | lib/routes-config.ts:20-27 | the "Social Auth" category yields its two pages under socialauth, in order |
| RoutesConfig.PageRoutesOfRoutes | lib/routes-config.ts:2-28 | the concrete table flattens to exactly these seven pages, in this order |
| RoutesConfig.RoutesPageCount | lib/routes-config.ts:2-28 | the concrete table flattens to 7 pages |
| RoutesConfig.RoutesFirstPage | lib/routes-config.ts:3-7 | the first page of the concrete table is {title: "Introduction", href: "getting-started/introduction"} |
| RoutesConfig.RoutesWellFormed | lib/routes-config.ts:2-28 | the concrete table is well formed: slash-free category hrefs, slash-led link hrefs, and no href used twice at either level |
| RoutesConfig.RoutesDistinctHrefs | lib/routes-config.ts:5-26 | all seven hrefs of the concrete table are pairwise distinct |

## Left out

- The landing page's hero component, `components/HeroSection/HeroSection.tsx`, is not part of this model. `FirstPage` stands for its read of the first entry. On an empty list JavaScript's `page_routes[0]` would be `undefined`, and `FirstPage` models that case as `None`.
- Whether a concatenated href resolves in the documentation router is not modelled. The router is not part of this model.
- The landing page sections are not modelled, because they are static markup with no logic: `components/Features/Features.tsx`, `components/FaqSection/FaqSection.tsx`, `components/footer.tsx`, `app/page.tsx` and `app/layout.tsx`.
- The feature cards' pointer-tracking gradient is not modelled. It uses floating-point pixel coordinates and an animation-frame loop that drives UI state.
- Metadata, fonts, theming and the analytics integration in the layout are not modelled. They are framework and third-party plumbing.
- `string` is Dafny's `seq<char>`. JavaScript strings are UTF-16, but this has no effect on plain concatenation of the ASCII hrefs in the table.
