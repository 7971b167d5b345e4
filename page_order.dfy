/** The order in which the admin screens list a site's pages: the first page
    whose slug is `index` leads, the other non-index pages follow in ascending
    slug order. The page list and the page sidebar each write this rule out;
    here it is defined once. `localeCompare` is the parameter `le`, read as
    "`a.localeCompare(b) <= 0`". */
module PageOrder {
  import opened Common
  import opened Ordering
  import opened Records

  const IndexSlug := "index"

  predicate IsIndex(p: PageSummary) { p.slug == IndexSlug }

  predicate NotIndex(p: PageSummary) { p.slug != IndexSlug }

  predicate HasIndex(pages: seq<PageSummary>) {
    exists i :: 0 <= i < |pages| && IsIndex(pages[i])
  }

  /** `p` is the first page of `pages` with slug `index`. */
  predicate FirstIndexPage(pages: seq<PageSummary>, p: PageSummary) {
    exists k :: 0 <= k < |pages| && pages[k] == p && IsIndex(p)
                && forall j :: 0 <= j < k ==> !IsIndex(pages[j])
  }

  /** Where the non-index pages start in the ordered list. */
  function Start(pages: seq<PageSummary>): nat {
    if HasIndex(pages) then 1 else 0
  }

  /** The comparator `(a, b) => a.slug.localeCompare(b.slug)`. */
  function BySlug(le: (string, string) -> bool): (PageSummary, PageSummary) -> bool {
    (a: PageSummary, b: PageSummary) => le(a.slug, b.slug)
  }

  /** `indexPage ? [indexPage] : []`: the first index page, if any. */
  function Lead(pages: seq<PageSummary>): (r: seq<PageSummary>)
    ensures |r| == Start(pages)
    ensures HasIndex(pages) ==> IsIndex(r[0]) && FirstIndexPage(pages, r[0])
  {
    match FindFirst(pages, IsIndex)
    case Some(k) =>
      assert FirstIndexPage(pages, pages[k]);
      [pages[k]]
    case None =>
      assert !HasIndex(pages);
      []
  }

  /** The non-index pages, sorted by slug. */
  function Others(pages: seq<PageSummary>, le: (string, string) -> bool): (r: seq<PageSummary>)
    ensures forall i :: 0 <= i < |r| ==> NotIndex(r[i])
    ensures multiset(r) == multiset(Filter(pages, NotIndex))
  {
    SortPermutes(Filter(pages, NotIndex), BySlug(le));
    Sort(Filter(pages, NotIndex), BySlug(le))
  }

  /** `indexPage ? [indexPage, ...otherPages] : otherPages`. */
  function OrderPages(pages: seq<PageSummary>, le: (string, string) -> bool): (r: seq<PageSummary>)
    ensures HasIndex(pages) <==> r != [] && IsIndex(r[0])
    ensures HasIndex(pages) ==> FirstIndexPage(pages, r[0])
    ensures forall i :: Start(pages) <= i < |r| ==> NotIndex(r[i])
    ensures |r| == Start(pages) + |Filter(pages, NotIndex)|
    ensures multiset(r[Start(pages)..]) == multiset(Filter(pages, NotIndex))
  {
    var r := Lead(pages) + Others(pages, le);
    assert r[Start(pages)..] == Others(pages, le);
    assert |Others(pages, le)| == |multiset(Others(pages, le))|;
    r
  }

  /** Given a total preorder on slugs, the non-index pages come in ascending
      slug order. */
  lemma OrderPagesSorted(pages: seq<PageSummary>, le: (string, string) -> bool)
    requires TotalPreorder(le)
    ensures SortedBy(OrderPages(pages, le)[Start(pages)..], BySlug(le))
  {
    BySlugTotalPreorder(le);
    SortSorted(Filter(pages, NotIndex), BySlug(le));
    assert OrderPages(pages, le)[Start(pages)..] == Others(pages, le);
  }

  lemma BySlugTotalPreorder(le: (string, string) -> bool)
    requires TotalPreorder(le)
    ensures TotalPreorder(BySlug(le))
  {
    var cmp := BySlug(le);
    forall x, y ensures cmp(x, y) || cmp(y, x) {
      assert le(x.slug, y.slug) || le(y.slug, x.slug);
    }
    forall x, y, z | cmp(x, y) && cmp(y, z) ensures cmp(x, z) {
      assert le(x.slug, y.slug) && le(y.slug, z.slug);
    }
  }

  /** A list without an index page is exactly the pages it keeps when the
      index pages are filtered out. */
  lemma FilterWithoutIndex(pages: seq<PageSummary>)
    requires !HasIndex(pages)
    ensures Filter(pages, NotIndex) == pages
  {
    assert forall i :: 0 <= i < |pages| ==> NotIndex(pages[i]);
    FilterKeepsAll(pages, NotIndex);
  }

  /** At most one page of the list has slug `index`. */
  predicate AtMostOneIndex(pages: seq<PageSummary>) {
    forall i, j :: 0 <= i < |pages| && 0 <= j < |pages| && IsIndex(pages[i]) && IsIndex(pages[j]) ==> i == j
  }

  /** With at most one index page, filtering the index pages out drops exactly
      that page. */
  lemma IndexSplit(pages: seq<PageSummary>, p: PageSummary)
    requires AtMostOneIndex(pages) && FirstIndexPage(pages, p)
    ensures multiset(pages) == multiset(Filter(pages, NotIndex)) + multiset{p}
  {
    var k :| 0 <= k < |pages| && pages[k] == p && IsIndex(p)
              && forall j :: 0 <= j < k ==> !IsIndex(pages[j]);
    assert forall i :: 0 <= i < |pages| && i != k ==> NotIndex(pages[i]);
    FilterDropsOne(pages, NotIndex, k);
  }

  /** With at most one index page the ordering loses and invents nothing: it is
      a permutation of its input. */
  lemma OrderPagesPermutation(pages: seq<PageSummary>, le: (string, string) -> bool)
    requires AtMostOneIndex(pages)
    ensures multiset(OrderPages(pages, le)) == multiset(pages)
  {
    var r := OrderPages(pages, le);
    if HasIndex(pages) {
      assert r == [r[0]] + r[1..];
      IndexSplit(pages, r[0]);
    } else {
      FilterWithoutIndex(pages);
      assert r == r[0..];
    }
  }

  /** A non-empty page list gives a non-empty ordered list. */
  lemma OrderPagesNonEmpty(pages: seq<PageSummary>, le: (string, string) -> bool)
    requires pages != []
    ensures OrderPages(pages, le) != []
  {
    if !HasIndex(pages) {
      assert NotIndex(pages[0]);
      assert pages[0] in Filter(pages, NotIndex);
    }
  }

  /** Without an index page, the ordering is a sorted permutation of its input. */
  lemma OrderPagesWithoutIndex(pages: seq<PageSummary>, le: (string, string) -> bool)
    requires TotalPreorder(le) && !HasIndex(pages)
    ensures SortedBy(OrderPages(pages, le), BySlug(le))
    ensures multiset(OrderPages(pages, le)) == multiset(pages)
  {
    OrderPagesSorted(pages, le);
    FilterWithoutIndex(pages);
    assert OrderPages(pages, le)[0..] == OrderPages(pages, le);
  }

  /** The admin link to a page's editor, `/admin/sites/{siteId}/pages/{id}/edit`. */
  function EditPageHref(siteId: nat, pageId: nat): string {
    SitePrefix(siteId) + "pages/" + Decimal(pageId) + "/edit"
  }

  /** `/admin/sites/{siteId}/`, which every admin link of a site starts with. */
  function SitePrefix(siteId: nat): string {
    "/admin/sites/" + Decimal(siteId) + "/"
  }

  /** Different pages of one site have different editor links. */
  lemma EditPageHrefInjective(siteId: nat, a: nat, b: nat)
    ensures EditPageHref(siteId, a) == EditPageHref(siteId, b) <==> a == b
  {
    if EditPageHref(siteId, a) == EditPageHref(siteId, b) {
      assert SitePrefix(siteId) + "pages/" + Decimal(a) + "/edit"
          == (SitePrefix(siteId) + "pages/") + Decimal(a) + "/edit";
      assert SitePrefix(siteId) + "pages/" + Decimal(b) + "/edit"
          == (SitePrefix(siteId) + "pages/") + Decimal(b) + "/edit";
      CancelAround(SitePrefix(siteId) + "pages/", Decimal(a), Decimal(b), "/edit");
      DecimalInjective(a, b);
    }
  }
}

/** `PageList`: the table of a site's pages. */
module PageList {
  import opened Common
  import opened Ordering
  import opened Records
  import opened PageOrder
  import PageService
  import Dates

  datatype Icon = HomeIcon | DocumentIcon

  /** The three status badges (公開中, 下書き, 非公開). */
  datatype Badge = PublishedBadge | DraftBadge | PrivateBadge

  function BadgeStatus(b: Badge): Status {
    match b
    case PublishedBadge => Published
    case DraftBadge => Draft
    case PrivateBadge => Private
  }

  /** The badges of one row: each of the three is shown when the status
      matches it. */
  function Badges(s: Status): (r: seq<Badge>)
    ensures |r| == 1 && BadgeStatus(r[0]) == s
  {
    (if s == Published then [PublishedBadge] else [])
      + (if s == Draft then [DraftBadge] else [])
      + (if s == Private then [PrivateBadge] else [])
  }

  datatype ListRow = ListRow(icon: Icon, href: string, slug: string, title: string,
                             badges: seq<Badge>, updated: string)

  /** What the component renders: the "no pages" message, the inner "no pages
      yet" message inside the frame, or the table. */
  datatype PageListView = NoPagesMessage | EmptyTableMessage | Table(rows: seq<ListRow>)

  function Row(siteId: nat, p: PageSummary, parse: string -> Option<int>,
               format: int -> Option<string>): (r: ListRow)
    ensures r.icon == HomeIcon <==> IsIndex(p)
    ensures r.href == EditPageHref(siteId, p.id)
    ensures |r.badges| == 1 && BadgeStatus(r.badges[0]) == p.status
  {
    ListRow(if IsIndex(p) then HomeIcon else DocumentIcon, EditPageHref(siteId, p.id),
            p.slug, p.title, Badges(p.status),
            Dates.FormatDateTime(Dates.Text(p.updatedAt), parse, format))
  }

  /** The table rows, one per page, in the order given. */
  function Rows(siteId: nat, ordered: seq<PageSummary>, parse: string -> Option<int>,
                format: int -> Option<string>): (r: seq<ListRow>)
    ensures |r| == |ordered|
    ensures forall i :: 0 <= i < |r| ==>
      && r[i].slug == ordered[i].slug
      && r[i].href == EditPageHref(siteId, ordered[i].id)
      && |r[i].badges| == 1 && BadgeStatus(r[i].badges[0]) == ordered[i].status
      && (r[i].icon == HomeIcon <==> IsIndex(ordered[i]))
  {
    seq(|ordered|, i requires 0 <= i < |ordered| => Row(siteId, ordered[i], parse, format))
  }

  /** The component: the site's pages from `getPages` (whose store errors give
      the empty list), shown in page order. */
  function Render(t: Tables, siteId: nat, fault: Option<string>, le: (string, string) -> bool,
                  parse: string -> Option<int>, format: int -> Option<string>): (r: PageListView)
    ensures r == NoPagesMessage <==> PageService.GetPages(t, siteId, fault) == []
    ensures r != EmptyTableMessage
    ensures r.Table? ==> r.rows == Rows(siteId, OrderPages(PageService.GetPages(t, siteId, fault), le), parse, format)
  {
    var pages := PageService.GetPages(t, siteId, fault);
    if |pages| == 0 then NoPagesMessage
    else
      var ordered := OrderPages(pages, le);
      OrderPagesNonEmpty(pages, le);
      if |ordered| == 0 then EmptyTableMessage
      else Table(Rows(siteId, ordered, parse, format))
  }
}

/** `PageSidebar`: the navigation beside the site editor. Each entry is
    active when the current path (the `x-current-path` request header) equals
    its link. */
module PageSidebar {
  import opened Common
  import opened Ordering
  import opened Records
  import opened PageOrder
  import PageService
  import LayoutService
  import StyleService
  import Access

  datatype Entry = Entry(text: string, href: string, active: bool)

  /** The four groups: the pages, the header and footer layouts, the style
      sheet, and the media library. */
  datatype Sidebar = Sidebar(pages: seq<Entry>, header: Option<Entry>, footer: Option<Entry>,
                             css: Option<Entry>, media: Entry)

  function Link(text: string, href: string, currentPath: Option<string>): (e: Entry)
    ensures e.href == href && e.text == text
    ensures e.active <==> currentPath == Some(href)
  {
    Entry(text, href, currentPath == Some(href))
  }

  function EditLayoutHref(siteId: nat, layoutId: nat): string {
    SitePrefix(siteId) + "layouts/" + Decimal(layoutId) + "/edit"
  }

  function StylesHref(siteId: nat): string {
    SitePrefix(siteId) + "styles"
  }

  function MediaHref(siteId: nat): string {
    SitePrefix(siteId) + "media"
  }

  /** The entry of an optional layout. */
  function LayoutLink(text: string, siteId: nat, layout: Option<Layout>,
                      currentPath: Option<string>): (r: Option<Entry>)
    ensures r.Some? <==> layout.Some?
    ensures r.Some? ==> r.value == Link(text, EditLayoutHref(siteId, layout.value.id), currentPath)
  {
    match layout
    case None => None
    case Some(l) => Some(Link(text, EditLayoutHref(siteId, l.id), currentPath))
  }

  /** The component. The pages come from `getPages`, which swallows its store
      errors; the two layout lookups and the style lookup let theirs through, in
      the order the component awaits them. */
  function Render(t: Tables, siteId: nat, pagesFault: Option<string>,
                  headerFault: Option<string>, footerFault: Option<string>,
                  styleFault: Option<string>, currentPath: Option<string>,
                  le: (string, string) -> bool): (r: Outcome<Sidebar>)
    ensures headerFault.Some? ==> r == Thrown(headerFault.value)
    ensures headerFault.None? && footerFault.Some? ==> r == Thrown(footerFault.value)
    ensures headerFault.None? && footerFault.None? && styleFault.Some? ==> r == Thrown(styleFault.value)
    ensures headerFault.None? && footerFault.None? && styleFault.None? ==> r.Ok?
    ensures r.Ok? ==>
      r.value.pages == PageLinks(siteId, OrderPages(PageService.GetPages(t, siteId, pagesFault), le), currentPath)
    ensures r.Ok? ==>
      && (r.value.header.Some? <==> LayoutService.GetLayoutByName(t, siteId, "header", None) != Ok(None))
      && (r.value.footer.Some? <==> LayoutService.GetLayoutByName(t, siteId, "footer", None) != Ok(None))
      && (r.value.css.Some? <==> StyleService.GetStyle(t, siteId, None) != Ok(None))
    ensures r.Ok? ==>
      && r.value.header == LayoutLink("header", siteId, LayoutService.GetLayoutByName(t, siteId, "header", None).value, currentPath)
      && r.value.footer == LayoutLink("footer", siteId, LayoutService.GetLayoutByName(t, siteId, "footer", None).value, currentPath)
    ensures r.Ok? ==> r.value.media == Link("media", MediaHref(siteId), currentPath)
    ensures r.Ok? && r.value.css.Some? ==> r.value.css.value == Link("css", StylesHref(siteId), currentPath)
  {
    var pages := PageService.GetPages(t, siteId, pagesFault);
    match LayoutService.GetLayoutByName(t, siteId, "header", headerFault)
    case Thrown(m) => Thrown(m)
    case Ok(header) =>
      match LayoutService.GetLayoutByName(t, siteId, "footer", footerFault)
      case Thrown(m) => Thrown(m)
      case Ok(footer) =>
        match StyleService.GetStyle(t, siteId, styleFault)
        case Thrown(m) => Thrown(m)
        case Ok(style) =>
          Ok(Sidebar(
            PageLinks(siteId, OrderPages(pages, le), currentPath),
            LayoutLink("header", siteId, header, currentPath),
            LayoutLink("footer", siteId, footer, currentPath),
            if style.Some? then Some(Link("css", StylesHref(siteId), currentPath)) else None,
            Link("media", MediaHref(siteId), currentPath)))
  }

  /** One link per page, in the order given, to the page's editor. */
  function PageLinks(siteId: nat, ordered: seq<PageSummary>, currentPath: Option<string>): (r: seq<Entry>)
    ensures |r| == |ordered|
    ensures forall i :: 0 <= i < |ordered| ==>
      r[i] == Link(ordered[i].slug, EditPageHref(siteId, ordered[i].id), currentPath)
  {
    seq(|ordered|, i requires 0 <= i < |ordered| =>
      Link(ordered[i].slug, EditPageHref(siteId, ordered[i].id), currentPath))
  }

  /** The links of different groups differ right after the site prefix
      (`pages/`, `layouts/`, `styles`, `media`). */
  lemma GroupHrefsDiffer(siteId: nat, pageId: nat, layoutId: nat)
    ensures EditPageHref(siteId, pageId) != EditLayoutHref(siteId, layoutId)
    ensures EditPageHref(siteId, pageId) != StylesHref(siteId)
    ensures EditPageHref(siteId, pageId) != MediaHref(siteId)
    ensures EditLayoutHref(siteId, layoutId) != StylesHref(siteId)
    ensures EditLayoutHref(siteId, layoutId) != MediaHref(siteId)
    ensures StylesHref(siteId) != MediaHref(siteId)
  {
    var n := |SitePrefix(siteId)|;
    assert EditPageHref(siteId, pageId)[n] == 'p';
    assert EditLayoutHref(siteId, layoutId)[n] == 'l';
    assert StylesHref(siteId)[n] == 's';
    assert MediaHref(siteId)[n] == 'm';
  }

  /** The highlighted entries of a sidebar built from these links all belong
      to one group, and highlighted page entries all lead to the same page. */
  predicate ActiveAgree(s: Sidebar, ordered: seq<PageSummary>) {
    && (forall i, j :: (0 <= i < |s.pages| && 0 <= j < |s.pages| && 0 <= i < |ordered| && 0 <= j < |ordered|
                        && s.pages[i].active && s.pages[j].active)
                        ==> ordered[i].id == ordered[j].id)
    && (s.media.active ==>
          && (forall i :: 0 <= i < |s.pages| ==> !s.pages[i].active)
          && (s.header.Some? ==> !s.header.value.active)
          && (s.footer.Some? ==> !s.footer.value.active)
          && (s.css.Some? ==> !s.css.value.active))
    && (s.css.Some? && s.css.value.active ==>
          && (forall i :: 0 <= i < |s.pages| ==> !s.pages[i].active)
          && (s.header.Some? ==> !s.header.value.active)
          && (s.footer.Some? ==> !s.footer.value.active))
    && ((s.header.Some? && s.header.value.active) || (s.footer.Some? && s.footer.value.active) ==>
          forall i :: 0 <= i < |s.pages| ==> !s.pages[i].active)
  }

  lemma LinksAgree(s: Sidebar, siteId: nat, ordered: seq<PageSummary>, header: Option<Layout>,
                   footer: Option<Layout>, currentPath: Option<string>)
    requires s.pages == PageLinks(siteId, ordered, currentPath)
    requires s.header == LayoutLink("header", siteId, header, currentPath)
    requires s.footer == LayoutLink("footer", siteId, footer, currentPath)
    requires s.css.Some? ==> s.css.value == Link("css", StylesHref(siteId), currentPath)
    requires s.media == Link("media", MediaHref(siteId), currentPath)
    ensures ActiveAgree(s, ordered)
  {
    var headerId := if header.Some? then header.value.id else 0;
    var footerId := if footer.Some? then footer.value.id else 0;
    forall i, j | 0 <= i < |s.pages| && 0 <= j < |s.pages| && s.pages[i].active && s.pages[j].active
      ensures ordered[i].id == ordered[j].id
    {
      EditPageHrefInjective(siteId, ordered[i].id, ordered[j].id);
    }
    forall i | 0 <= i < |s.pages|
      ensures s.pages[i].active ==> !s.media.active
      ensures s.pages[i].active && s.css.Some? ==> !s.css.value.active
      ensures s.pages[i].active && s.header.Some? ==> !s.header.value.active
      ensures s.pages[i].active && s.footer.Some? ==> !s.footer.value.active
    {
      GroupHrefsDiffer(siteId, ordered[i].id, headerId);
      GroupHrefsDiffer(siteId, ordered[i].id, footerId);
    }
    GroupHrefsDiffer(siteId, 0, headerId);
    GroupHrefsDiffer(siteId, 0, footerId);
  }

  /** Whatever the current path, the highlighted entries of the rendered
      sidebar all belong to one group, and active page entries all lead to the
      same page. */
  lemma ActiveEntriesAgree(t: Tables, siteId: nat, pagesFault: Option<string>,
                           currentPath: Option<string>, le: (string, string) -> bool)
    ensures ActiveAgree(Render(t, siteId, pagesFault, None, None, None, currentPath, le).value,
                        OrderPages(PageService.GetPages(t, siteId, pagesFault), le))
  {
    var s := Render(t, siteId, pagesFault, None, None, None, currentPath, le).value;
    var ordered := OrderPages(PageService.GetPages(t, siteId, pagesFault), le);
    LinksAgree(s, siteId, ordered, LayoutService.GetLayoutByName(t, siteId, "header", None).value,
               LayoutService.GetLayoutByName(t, siteId, "footer", None).value, currentPath);
  }

  /** A signed-in request for a page's editor passes the admin gate with its
      path in `x-current-path`, and the sidebar rendered from that header
      highlights exactly the entries of that page. */
  lemma RequestedPageIsActive(t: Tables, siteId: nat, pagesFault: Option<string>, pageId: nat,
                              headers: map<string, string>, le: (string, string) -> bool)
    ensures
      var path := EditPageHref(siteId, pageId);
      var d := Access.Middleware(path, true, headers);
      && d.Continue?
      && Access.CurrentPathHeader in d.headers
      && var r := Render(t, siteId, pagesFault, None, None, None, Some(d.headers[Access.CurrentPathHeader]), le);
         var ordered := OrderPages(PageService.GetPages(t, siteId, pagesFault), le);
         forall i :: 0 <= i < |r.value.pages| ==> (r.value.pages[i].active <==> ordered[i].id == pageId)
  {
    var path := EditPageHref(siteId, pageId);
    assert Access.UnderAdmin(path) by {
      assert path[..7] == "/admin/";
    }
    assert path != Access.LoginPath by {
      assert path[7] == 's';
    }
    var ordered := OrderPages(PageService.GetPages(t, siteId, pagesFault), le);
    forall i | 0 <= i < |ordered| ensures EditPageHref(siteId, ordered[i].id) == path <==> ordered[i].id == pageId {
      EditPageHrefInjective(siteId, ordered[i].id, pageId);
    }
  }
}
