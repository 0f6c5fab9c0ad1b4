/**
  The documentation route table and its flattening into the ordered list of
  pages that the navigation and the landing page's "get started" link use.

  A category holds a title, a base path segment and an ordered list of links;
  each link's href is a suffix. Flattening maps every link of every category
  to a page whose title is the link's title and whose href is the category's
  href followed directly by the link's href (plain string concatenation, no
  separator), then joins the per-category lists in table order.
 */
module RoutesConfig {

  /** A `{title, href}` pair: a leaf of the table, and an entry of the flattened list. */
  datatype Link = Link(title: string, href: string)

  /** One category of the table: its title (not used by flattening), its base href and its links. */
  datatype Category = Category(title: string, href: string, items: seq<Link>)

  datatype Option<T> = None | Some(value: T)

  // ---------------------------------------------------------------------------
  // The transform
  // ---------------------------------------------------------------------------

  /** The page a link of a category with base href `base` becomes. */
  function Page(base: string, link: Link): Link
  {
    Link(link.title, base + link.href)
  }

  /**
    The inner `items.map(...)`: the pages of one category, in the order of its
    links. The contract says which page sits at each position.
   */
  function CategoryPages(base: string, items: seq<Link>): (r: seq<Link>)
    ensures |r| == |items|
    ensures forall k :: 0 <= k < |items| ==> r[k] == Page(base, items[k])
  {
    if items == [] then []
    else [Page(base, items[0])] + CategoryPages(base, items[1..])
  }

  /** The number of links of all categories together. */
  function TotalItems(routes: seq<Category>): nat
  {
    if routes == [] then 0 else |routes[0].items| + TotalItems(routes[1..])
  }

  /** The position in the flattened list where the pages of category `i` begin. */
  function Offset(routes: seq<Category>, i: nat): nat
    requires i <= |routes|
  {
    TotalItems(routes[..i])
  }

  /**
    The outer `ROUTES.map(...).flat()`: every category's pages, categories in
    table order. Only a category's href and items take part.
   */
  function PageRoutes(routes: seq<Category>): (r: seq<Link>)
    ensures |r| == TotalItems(routes)
  {
    if routes == [] then []
    else CategoryPages(routes[0].href, routes[0].items) + PageRoutes(routes[1..])
  }

  // ---------------------------------------------------------------------------
  // Where each page comes from
  // ---------------------------------------------------------------------------

  lemma {:induction false} TotalItemsAppend(a: seq<Category>, b: seq<Category>)
    ensures TotalItems(a + b) == TotalItems(a) + TotalItems(b)
  {
    if a == [] {
      assert a + b == b;
    } else {
      assert (a + b)[1..] == a[1..] + b;
      TotalItemsAppend(a[1..], b);
    }
  }

  /** Offsets step by the size of each category, so they never decrease. */
  lemma OffsetStep(routes: seq<Category>, i: nat)
    requires i < |routes|
    ensures Offset(routes, i + 1) == Offset(routes, i) + |routes[i].items|
  {
    assert routes[..i + 1] == routes[..i] + [routes[i]];
    TotalItemsAppend(routes[..i], [routes[i]]);
    assert [routes[i]][1..] == [];
  }

  lemma {:induction false} OffsetMonotone(routes: seq<Category>, i: nat, i': nat)
    requires i <= i' <= |routes|
    ensures Offset(routes, i) <= Offset(routes, i')
  {
    if i < i' {
      OffsetMonotone(routes, i, i' - 1);
      OffsetStep(routes, i' - 1);
    }
  }

  lemma OffsetOfTail(routes: seq<Category>, i: nat)
    requires 0 < |routes| && i < |routes|
    ensures Offset(routes, i + 1) == |routes[0].items| + Offset(routes[1..], i)
  {
    assert routes[..i + 1][1..] == routes[1..][..i];
  }

  /**
    The page built from link `j` of category `i` sits at position
    `Offset(routes, i) + j`: its title is the link's title and its href is the
    category's href followed by the link's href.
   */
  lemma {:induction false} PageRoutesAt(routes: seq<Category>, i: nat, j: nat)
    requires i < |routes| && j < |routes[i].items|
    ensures Offset(routes, i) + j < |PageRoutes(routes)|
    ensures PageRoutes(routes)[Offset(routes, i) + j]
         == Link(routes[i].items[j].title, routes[i].href + routes[i].items[j].href)
  {
    OffsetStep(routes, i);
    OffsetMonotone(routes, i + 1, |routes|);
    assert routes[..|routes|] == routes;
    var head := CategoryPages(routes[0].href, routes[0].items);
    if i == 0 {
      assert routes[..0] == [];
    } else {
      OffsetOfTail(routes, i - 1);
      PageRoutesAt(routes[1..], i - 1, j);
      assert PageRoutes(routes)[Offset(routes, i) + j]
          == PageRoutes(routes[1..])[Offset(routes, i) + j - |head|];
    }
  }

  /**
    The converse of PageRoutesAt: every page of the flattened list comes from
    exactly the category and link this function names.
   */
  function Origin(routes: seq<Category>, k: nat): (r: (nat, nat))
    requires k < |PageRoutes(routes)|
    ensures r.0 < |routes| && r.1 < |routes[r.0].items|
    ensures k == Offset(routes, r.0) + r.1
    ensures PageRoutes(routes)[k]
         == Link(routes[r.0].items[r.1].title, routes[r.0].href + routes[r.0].items[r.1].href)
  {
    if k < |routes[0].items| then
      assert routes[..0] == [];
      PageRoutesAt(routes, 0, k);
      (0, k)
    else
      var (i, j) := Origin(routes[1..], k - |routes[0].items|);
      OffsetOfTail(routes, i);
      PageRoutesAt(routes, i + 1, j);
      (i + 1, j)
  }

  /**
    Order is kept: every page of an earlier category comes before every page
    of a later one, and within a category pages follow the order of its links.
   */
  lemma PageRoutesOrder(routes: seq<Category>, i: nat, j: nat, i': nat, j': nat)
    requires i < |routes| && j < |routes[i].items|
    requires i' < |routes| && j' < |routes[i'].items|
    requires i < i' || (i == i' && j < j')
    ensures Offset(routes, i) + j < Offset(routes, i') + j'
  {
    if i < i' {
      OffsetStep(routes, i);
      OffsetMonotone(routes, i + 1, i');
    }
  }

  // ---------------------------------------------------------------------------
  // Algebraic laws
  // ---------------------------------------------------------------------------

  /** Flattening distributes over concatenation of route tables. */
  lemma {:induction false} PageRoutesAppend(a: seq<Category>, b: seq<Category>)
    ensures PageRoutes(a + b) == PageRoutes(a) + PageRoutes(b)
  {
    if a == [] {
      assert a + b == b;
    } else {
      assert (a + b)[0] == a[0];
      assert (a + b)[1..] == a[1..] + b;
      PageRoutesAppend(a[1..], b);
    }
  }

  /** A category without links contributes no pages wherever it stands. */
  lemma EmptyCategoryContributesNothing(a: seq<Category>, c: Category, b: seq<Category>)
    requires c.items == []
    ensures PageRoutes(a + [c] + b) == PageRoutes(a + b)
  {
    assert a + [c] + b == a + ([c] + b);
    assert ([c] + b)[1..] == b;
    PageRoutesAppend(a, [c] + b);
    PageRoutesAppend(a, b);
  }

  /** A table whose categories all lack links flattens to nothing. */
  lemma {:induction false} AllEmptyCategories(routes: seq<Category>)
    requires forall i :: 0 <= i < |routes| ==> routes[i].items == []
    ensures PageRoutes(routes) == []
  {
    if routes != [] {
      AllEmptyCategories(routes[1..]);
    }
  }

  /**
    Category titles play no part: two tables that agree on every category's
    href and links flatten to the same list.
   */
  lemma {:induction false} CategoryTitleIrrelevant(routes: seq<Category>, routes': seq<Category>)
    requires |routes| == |routes'|
    requires forall i :: 0 <= i < |routes| ==>
      routes[i].href == routes'[i].href && routes[i].items == routes'[i].items
    ensures PageRoutes(routes) == PageRoutes(routes')
  {
    if routes != [] {
      CategoryTitleIrrelevant(routes[1..], routes'[1..]);
    }
  }

  /** The entry the landing page's "get started" link reads, when there is one. */
  function FirstPage(routes: seq<Category>): (r: Option<Link>)
    ensures r == None <==> TotalItems(routes) == 0
    ensures r.Some? ==> r.value == PageRoutes(routes)[0]
  {
    var pages := PageRoutes(routes);
    if |pages| == 0 then None else Some(pages[0])
  }

  /**
    The first page comes from the first link of the first category that has
    links at all.
   */
  lemma FirstPageOrigin(routes: seq<Category>, i: nat)
    requires i < |routes| && routes[i].items != []
    requires forall h :: 0 <= h < i ==> routes[h].items == []
    ensures FirstPage(routes)
         == Some(Link(routes[i].items[0].title, routes[i].href + routes[i].items[0].href))
  {
    AllEmptyCategories(routes[..i]);
    assert |PageRoutes(routes[..i])| == Offset(routes, i);
    PageRoutesAt(routes, i, 0);
  }

  // ---------------------------------------------------------------------------
  // When hrefs are unique
  // ---------------------------------------------------------------------------

  /** A category href is a single path segment. */
  predicate SlashFree(s: string)
  {
    forall i :: 0 <= i < |s| ==> s[i] != '/'
  }

  /** A link href starts a new path segment. */
  predicate LeadingSlash(s: string)
  {
    |s| > 0 && s[0] == '/'
  }

  /**
    The authoring convention the table follows: a slash-free category href,
    links whose hrefs start with a slash, and no link href used twice within
    one category.
   */
  predicate WellFormedCategory(c: Category)
  {
    && SlashFree(c.href)
    && (forall j :: 0 <= j < |c.items| ==> LeadingSlash(c.items[j].href))
    && (forall j, j' :: 0 <= j < j' < |c.items| ==> c.items[j].href != c.items[j'].href)
  }

  /** Every category follows the convention and no category href is used twice. */
  predicate WellFormed(routes: seq<Category>)
  {
    && (forall i :: 0 <= i < |routes| ==> WellFormedCategory(routes[i]))
    && (forall i, i' :: 0 <= i < i' < |routes| ==> routes[i].href != routes[i'].href)
  }

  /** In a slash-free base followed by a slash-led suffix, the first slash is where the suffix starts. */
  lemma FirstSlash(base: string, suffix: string)
    requires SlashFree(base) && LeadingSlash(suffix)
    ensures forall i :: 0 <= i < |base| ==> (base + suffix)[i] != '/'
    ensures (base + suffix)[|base|] == '/'
  {
  }

  /** Such a concatenation can be taken apart again: base and suffix are determined by the whole. */
  lemma SplitHref(base: string, suffix: string, base': string, suffix': string)
    requires SlashFree(base) && LeadingSlash(suffix)
    requires SlashFree(base') && LeadingSlash(suffix')
    requires base + suffix == base' + suffix'
    ensures base == base' && suffix == suffix'
  {
    FirstSlash(base, suffix);
    FirstSlash(base', suffix');
    assert |base| == |base'|;
    assert base == (base + suffix)[..|base|];
    assert base' == (base' + suffix')[..|base'|];
    assert suffix == (base + suffix)[|base|..];
    assert suffix' == (base' + suffix')[|base'|..];
  }

  /** In a well-formed table, a page's href determines its position in the flattened list. */
  lemma HrefDeterminesPosition(routes: seq<Category>, k: nat, k': nat)
    requires WellFormed(routes)
    requires k < |PageRoutes(routes)| && k' < |PageRoutes(routes)|
    requires PageRoutes(routes)[k].href == PageRoutes(routes)[k'].href
    ensures k == k'
  {
    var (i, j) := Origin(routes, k);
    var (i', j') := Origin(routes, k');
    var c, c' := routes[i], routes[i'];
    assert WellFormedCategory(c) && WellFormedCategory(c');
    SplitHref(c.href, c.items[j].href, c'.href, c'.items[j'].href);
    assert i == i' by {
      if i < i' || i' < i {
        assert false;
      }
    }
    assert j == j' by {
      if j < j' || j' < j {
        assert false;
      }
    }
  }

  /** A well-formed table flattens to pages with pairwise distinct hrefs. */
  lemma DistinctHrefs(routes: seq<Category>)
    requires WellFormed(routes)
    ensures forall k, k' :: 0 <= k < k' < |PageRoutes(routes)| ==>
      PageRoutes(routes)[k].href != PageRoutes(routes)[k'].href
  {
    forall k, k' | 0 <= k < k' < |PageRoutes(routes)|
      ensures PageRoutes(routes)[k].href != PageRoutes(routes)[k'].href
    {
      if PageRoutes(routes)[k].href == PageRoutes(routes)[k'].href {
        HrefDeterminesPosition(routes, k, k');
      }
    }
  }

  // ---------------------------------------------------------------------------
  // The concrete table
  // ---------------------------------------------------------------------------

  const GETTING_STARTED: Category := Category("Getting Started", "getting-started", [
    Link("Introduction", "/introduction"),
    Link("Quick Start Guide", "/quick-start-guide"),
    Link("Project Structure", "/project-structure")
  ])

  const JWT_AUTH: Category := Category("JWT Auth", "jwtAuth", [
    Link("Basic Auth", "/basicAuth"),
    Link("With mail confirmation", "/mailconfirmation")
  ])

  const SOCIAL_AUTH: Category := Category("Social Auth", "socialauth", [
    Link("Google Auth", "/googleAuth"),
    Link("Github Auth", "/githubAuth")
  ])

  /** The hand-written route table, in navigation order. */
  const ROUTES: seq<Category> := [GETTING_STARTED, JWT_AUTH, SOCIAL_AUTH]

  lemma GettingStartedPages()
    ensures PageRoutes([GETTING_STARTED]) == [
      Link("Introduction", "getting-started" + "/introduction"),
      Link("Quick Start Guide", "getting-started" + "/quick-start-guide"),
      Link("Project Structure", "getting-started" + "/project-structure")
    ]
  {
  }

  lemma JwtAuthPages()
    ensures PageRoutes([JWT_AUTH]) == [
      Link("Basic Auth", "jwtAuth" + "/basicAuth"),
      Link("With mail confirmation", "jwtAuth" + "/mailconfirmation")
    ]
  {
  }

  lemma SocialAuthPages()
    ensures PageRoutes([SOCIAL_AUTH]) == [
      Link("Google Auth", "socialauth" + "/googleAuth"),
      Link("Github Auth", "socialauth" + "/githubAuth")
    ]
  {
  }

  /** The flattened table, page by page: each href is its category's href followed by the link's. */
  lemma PageRoutesOfRoutes()
    ensures PageRoutes(ROUTES) == [
      Link("Introduction", "getting-started" + "/introduction"),
      Link("Quick Start Guide", "getting-started" + "/quick-start-guide"),
      Link("Project Structure", "getting-started" + "/project-structure"),
      Link("Basic Auth", "jwtAuth" + "/basicAuth"),
      Link("With mail confirmation", "jwtAuth" + "/mailconfirmation"),
      Link("Google Auth", "socialauth" + "/googleAuth"),
      Link("Github Auth", "socialauth" + "/githubAuth")
    ]
  {
    assert ROUTES == [GETTING_STARTED] + ([JWT_AUTH] + [SOCIAL_AUTH]);
    PageRoutesAppend([GETTING_STARTED], [JWT_AUTH] + [SOCIAL_AUTH]);
    PageRoutesAppend([JWT_AUTH], [SOCIAL_AUTH]);
    GettingStartedPages();
    JwtAuthPages();
    SocialAuthPages();
  }

  /** The table flattens to seven pages. */
  lemma RoutesPageCount()
    ensures |PageRoutes(ROUTES)| == 7
  {
    var tail := ROUTES[1..];
    assert tail == [JWT_AUTH, SOCIAL_AUTH];
    assert tail[1..] == [SOCIAL_AUTH];
    assert tail[1..][1..] == [];
    assert TotalItems(ROUTES) == 3 + TotalItems(tail);
    assert TotalItems(tail) == 2 + TotalItems(tail[1..]);
    assert TotalItems(tail[1..]) == 2 + TotalItems([]);
  }

  /** The landing page's "get started" link leads to the introduction. */
  lemma RoutesFirstPage()
    ensures FirstPage(ROUTES) == Some(Link("Introduction", "getting-started/introduction"))
  {
    PageRoutesOfRoutes();
    assert "getting-started" + "/introduction" == "getting-started/introduction";
  }

  /** The hand-written table follows the authoring convention. */
  lemma RoutesWellFormed()
    ensures WellFormed(ROUTES)
  {
  }

  /** No two pages of the table share an href. */
  lemma RoutesDistinctHrefs()
    ensures forall k, k' :: 0 <= k < k' < |PageRoutes(ROUTES)| ==>
      PageRoutes(ROUTES)[k].href != PageRoutes(ROUTES)[k'].href
  {
    RoutesWellFormed();
    DistinctHrefs(ROUTES);
  }
}
