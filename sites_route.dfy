/** The `/api/sites` route: `GET` lists the live sites newest first; `POST`
    validates a payload, inserts a site, then seeds its `index` page, `header`
    and `footer` layouts and its style, one statement at a time and without a
    transaction. The store is a class whose four table fields the handler
    appends to. */
module SitesRoute {
  import opened Common
  import opened Ordering
  import opened Records
  import SiteService

  /** The JSON body of a create request; a member may be absent. */
  datatype CreateSitePayload = CreateSitePayload(slug: Option<string>, name: Option<string>,
                                                 status: Option<string>)

  /** What one statement does when the store runs it: completes, reports
      failure without throwing (`success` false, no row id, or no row found),
      or throws an Error with a message. */
  datatype StatementResult = Completes | ReportsFailure | Throws(message: string)

  /** The store's behaviour during one `POST`: whether connecting throws, then
      the result of each statement in the order the handler issues them. The
      site insert is also refused by the slug constraint whatever this says. */
  datatype StoreRun = StoreRun(connect: Option<string>, siteInsert: StatementResult,
                               siteSelect: StatementResult, indexPage: StatementResult,
                               header: StatementResult, footer: StatementResult,
                               style: StatementResult)

  /** The `message` of an error body. */
  datatype Message =
    | SlugAndNameRequired   // 400: slug or name missing
    | StatusInvalid         // 400: status outside the three names
    | SiteInsertFailed      // 500: the insert reported failure
    | SiteFetchFailed       // 500: the new row could not be read back
    | SlugExists            // 409: a UNIQUE constraint failed
    | ErrorText(text: string) // 500: the thrown Error's own message

  datatype Response =
    | Created(site: Site)                 // 201 with the new site
    | SiteList(sites: seq<Site>)          // 200 with the listing
    | Failed(code: nat, message: Message)

  function Code(r: Response): nat {
    match r
    case Created(_) => 201
    case SiteList(_) => 200
    case Failed(code, _) => code
  }

  const UniqueMarker := "UNIQUE constraint failed"

  /** The message the store throws when an insert repeats a slug. */
  const SlugViolation := "UNIQUE constraint failed: Sites.slug"

  /** The `catch` of `POST`: a message naming a failed UNIQUE constraint is a
      409, any other Error a 500 carrying its message. */
  function ErrorResponse(message: string): (r: Response)
    ensures Code(r) == 409 <==> Contains(message, UniqueMarker)
    ensures Code(r) == 409 || Code(r) == 500
    ensures Code(r) == 500 ==> r.message == ErrorText(message)
  {
    if Contains(message, UniqueMarker) then Failed(409, SlugExists)
    else Failed(500, ErrorText(message))
  }

  lemma SlugViolationIsConflict()
    ensures Code(ErrorResponse(SlugViolation)) == 409
  {
    ContainsAt(SlugViolation, UniqueMarker, 0);
  }

  /** The newest-first order on sites: by `created_at`, descending. */
  predicate NewerFirst(a: Site, b: Site) {
    LexLe(b.createdAt, a.createdAt)
  }

  lemma NewerFirstTotalPreorder()
    ensures TotalPreorder(NewerFirst)
  {
    LexLeTotalPreorder();
  }

  /** `GET`: the live sites ordered by `created_at` descending, or 500 when
      the store throws. */
  function ListSites(t: Tables, fault: Option<string>): (r: Response)
    ensures fault.Some? ==> r == Failed(500, ErrorText(fault.value))
    ensures fault.None? ==> r.SiteList?
    ensures r.SiteList? ==> multiset(r.sites) == multiset(SiteService.LiveSites(t.sites))
    ensures r.SiteList? ==> forall s :: s in r.sites <==> SiteRow(s, None) in t.sites
    ensures r.SiteList? ==> SortedBy(r.sites, NewerFirst)
  {
    if fault.Some? then Failed(500, ErrorText(fault.value))
    else
      var sorted := Sort(SiteService.LiveSites(t.sites), NewerFirst);
      NewerFirstTotalPreorder();
      SortSorted(SiteService.LiveSites(t.sites), NewerFirst);
      assert forall s :: s in sorted <==> s in multiset(SiteService.LiveSites(t.sites));
      SiteList(sorted)
  }

  /** A payload that passed validation. */
  datatype ValidSite = ValidSite(slug: string, name: string, status: Status)

  datatype Checked = Accepted(site: ValidSite) | Rejected(message: Message)

  /** The validation of `POST`: slug and name must be non-empty; an absent or
      empty status means `draft`; any other status must be one of the three. */
  function Validate(p: CreateSitePayload): (r: Checked)
    ensures !Truthy(p.slug) || !Truthy(p.name) ==> r == Rejected(SlugAndNameRequired)
    ensures Truthy(p.slug) && Truthy(p.name) && !Truthy(p.status) ==>
      r == Accepted(ValidSite(p.slug.value, p.name.value, Draft))
    ensures Truthy(p.slug) && Truthy(p.name) && Truthy(p.status) ==>
      (r.Accepted? <==> p.status.value in {"draft", "published", "private"})
    ensures r.Rejected? && Truthy(p.slug) && Truthy(p.name) ==> r.message == StatusInvalid
    ensures r.Accepted? ==>
      r.site.slug == p.slug.value && r.site.name == p.name.value
      && (Truthy(p.status) ==> StatusName(r.site.status) == p.status.value)
  {
    var status := if Truthy(p.status) then p.status.value else "draft";
    if !Truthy(p.slug) || !Truthy(p.name) then Rejected(SlugAndNameRequired)
    else match ParseStatus(status)
      case None => Rejected(StatusInvalid)
      case Some(s) => Accepted(ValidSite(p.slug.value, p.name.value, s))
  }

  /** Whether any row of the table, soft-deleted or not, holds the slug: the
      column constraint covers every row. */
  predicate SlugInUse(rows: seq<SiteRow>, slug: string) {
    exists i :: 0 <= i < |rows| && rows[i].site.slug == slug
  }

  const IndexPageContent := "<!-- INDEX PAGE -->"
  const HeaderContent := "<!-- HEADER -->"
  const FooterContent := "<!-- FOOTER -->"
  const StyleContent := "/* CSS */"

  function IndexPageRow(id: nat, site: Site, now: string): PageRow {
    PageRow(Page(id, site.id, "index", site.name, Some(IndexPageContent), now, now, Draft, None), None)
  }

  function LayoutSeedRow(id: nat, site: Site, name: string, content: string, now: string): LayoutRow {
    LayoutRow(Layout(id, site.id, name, content, now, now), None)
  }

  function StyleSeedRow(id: nat, site: Site, now: string): StyleRow {
    StyleRow(Style(id, site.id, StyleContent, now, now), None)
  }

  /** Seeding statement `k` (0 the index page, 1 the header, 2 the footer,
      3 the style) is issued: the new site was read back and no earlier seeding
      statement threw. */
  predicate SeedIssued(run: StoreRun, k: nat)
    requires k < 4
  {
    && run.siteSelect.Completes?
    && (k > 0 ==> !run.indexPage.Throws?)
    && (k > 1 ==> !run.header.Throws?)
    && (k > 2 ==> !run.footer.Throws?)
  }

  function Seed(run: StoreRun, k: nat): StatementResult
    requires k < 4
  {
    if k == 0 then run.indexPage else if k == 1 then run.header else if k == 2 then run.footer else run.style
  }

  /** Seeding statement `k` added its row. */
  predicate SeedAdded(run: StoreRun, k: nat)
    requires k < 4
  {
    SeedIssued(run, k) && Seed(run, k).Completes?
  }

  /** The tables after the seeding of `site` during `run`: each seeded row is
      there exactly when its statement was issued and completed. */
  function SeededPages(run: StoreRun, rows: seq<PageRow>, site: Site, now: string): seq<PageRow> {
    if SeedAdded(run, 0) then AddIndexPage(rows, site, now) else rows
  }

  function SeededLayouts(run: StoreRun, rows: seq<LayoutRow>, site: Site, now: string): seq<LayoutRow> {
    var withHeader := if SeedAdded(run, 1) then AddLayout(rows, site, "header", HeaderContent, now) else rows;
    if SeedAdded(run, 2) then AddLayout(withHeader, site, "footer", FooterContent, now) else withHeader
  }

  function SeededStyles(run: StoreRun, rows: seq<StyleRow>, site: Site, now: string): seq<StyleRow> {
    if SeedAdded(run, 3) then AddStyle(rows, site, now) else rows
  }

  /** The Pages table after the `index` page insert. */
  function AddIndexPage(rows: seq<PageRow>, site: Site, now: string): (r: seq<PageRow>)
    ensures |r| == |rows| + 1 && r[..|rows|] == rows && r[|rows|].deletedAt.None?
    ensures var p := r[|rows|].page;
      p.siteId == site.id && p.slug == "index" && p.title == site.name
      && p.htmlContent == Some(IndexPageContent) && p.status == Draft
  {
    rows + [IndexPageRow(NextId(PageIds(rows)), site, now)]
  }

  /** The Layouts table after a layout insert. */
  function AddLayout(rows: seq<LayoutRow>, site: Site, name: string, content: string, now: string): (r: seq<LayoutRow>)
    ensures |r| == |rows| + 1 && r[..|rows|] == rows && r[|rows|].deletedAt.None?
    ensures var l := r[|rows|].layout;
      l.siteId == site.id && l.name == name && l.htmlContent == content
  {
    rows + [LayoutSeedRow(NextId(LayoutIds(rows)), site, name, content, now)]
  }

  /** The Styles table after the style insert. */
  function AddStyle(rows: seq<StyleRow>, site: Site, now: string): (r: seq<StyleRow>)
    ensures |r| == |rows| + 1 && r[..|rows|] == rows && r[|rows|].deletedAt.None?
    ensures r[|rows|].style.siteId == site.id && r[|rows|].style.cssContent == StyleContent
  {
    rows + [StyleSeedRow(NextId(StyleIds(rows)), site, now)]
  }

  /** The response once the site row is in: 500 if it cannot be read back,
      the classification of the first seeding statement that throws, else 201. */
  function SeedResponse(run: StoreRun, site: Site): (r: Response)
    ensures r.Created? <==> SeedIssued(run, 3) && !run.style.Throws?
    ensures r.Created? ==> r.site == site
    ensures !r.Created? ==> Code(r) in {409, 500}
  {
    match run.siteSelect
    case ReportsFailure => Failed(500, SiteFetchFailed)
    case Throws(m) => ErrorResponse(m)
    case Completes =>
      if run.indexPage.Throws? then ErrorResponse(run.indexPage.message)
      else if run.header.Throws? then ErrorResponse(run.header.message)
      else if run.footer.Throws? then ErrorResponse(run.footer.message)
      else if run.style.Throws? then ErrorResponse(run.style.message)
      else Created(site)
  }

  /** The store's invariant: site ids positive and distinct, slugs distinct
      over every row, and every page, layout and style owned by a site row. */
  ghost predicate Consistent(t: Tables) {
    && (forall i :: 0 <= i < |t.sites| ==> t.sites[i].site.id > 0)
    && (forall i, j :: 0 <= i < j < |t.sites| ==>
          t.sites[i].site.id != t.sites[j].site.id && t.sites[i].site.slug != t.sites[j].site.slug)
    && (forall i :: 0 <= i < |t.pages| ==> t.pages[i].page.siteId in SiteIds(t.sites))
    && (forall i :: 0 <= i < |t.layouts| ==> t.layouts[i].layout.siteId in SiteIds(t.sites))
    && (forall i :: 0 <= i < |t.styles| ==> t.styles[i].style.siteId in SiteIds(t.sites))
  }

  /** In a consistent store a slug names at most one site, so `getSiteId` finds
      a site exactly when one with that slug is live (its `|| null` never
      fires). */
  lemma {:induction false} SiteIdFoundIffLive(t: Tables, slug: string)
    requires Consistent(t)
    ensures SiteService.GetSiteId(t, slug, None).Some? <==>
      exists s :: SiteRow(s, None) in t.sites && s.slug == slug
  {
    var found := SiteService.GetSiteBySlug(t, slug, None);
    if found.Some? {
      var i :| 0 <= i < |t.sites| && t.sites[i] == SiteRow(found.value, None);
      assert found.value.id > 0;
    }
  }

  lemma AddIndexPageKeeps(t: Tables, site: Site, now: string)
    requires Consistent(t) && site.id in SiteIds(t.sites)
    ensures Consistent(t.(pages := AddIndexPage(t.pages, site, now)))
  {
  }

  lemma AddLayoutKeeps(t: Tables, site: Site, name: string, content: string, now: string)
    requires Consistent(t) && site.id in SiteIds(t.sites)
    ensures Consistent(t.(layouts := AddLayout(t.layouts, site, name, content, now)))
  {
  }

  lemma AddStyleKeeps(t: Tables, site: Site, now: string)
    requires Consistent(t) && site.id in SiteIds(t.sites)
    ensures Consistent(t.(styles := AddStyle(t.styles, site, now)))
  {
  }

  class SiteStore {
    var sites: seq<SiteRow>
    var pages: seq<PageRow>
    var layouts: seq<LayoutRow>
    var styles: seq<StyleRow>

    function Snapshot(): Tables
      reads this
    {
      Tables(sites, pages, layouts, styles)
    }

    ghost predicate Valid()
      reads this
    {
      Consistent(Snapshot())
    }

    constructor ()
      ensures Valid() && Snapshot() == Tables([], [], [], [])
    {
      sites, pages, layouts, styles := [], [], [], [];
    }

    /** Appends a site row under the next row id; a slug no row holds keeps
        the store consistent. */
    method InsertSite(v: ValidSite, now: string) returns (site: Site)
      requires Valid() && !SlugInUse(sites, v.slug)
      modifies this`sites
      ensures Valid()
      ensures site == Site(NextId(SiteIds(old(sites))), v.slug, v.name, v.status, now, now)
      ensures site.id !in SiteIds(old(sites)) && site.id in SiteIds(sites)
      ensures sites == old(sites) + [SiteRow(site, None)]
    {
      ghost var before := sites;
      site := Site(NextId(SiteIds(sites)), v.slug, v.name, v.status, now, now);
      sites := sites + [SiteRow(site, None)];
      assert Consistent(Snapshot()) by {
        forall i | 0 <= i < |before| ensures before[i].site.id < site.id {
          assert SiteIds(before)[i] == before[i].site.id;
        }
        forall i | 0 <= i < |before| ensures before[i].site.slug != site.slug {
          assert !(before[i].site.slug == v.slug);
        }
        assert SiteIds(before) <= SiteIds(sites);
      }
      assert SiteIds(sites)[|sites| - 1] == site.id;
    }

    /** One seeding insert into Pages that did not throw: the row is added
        when the statement completes. */
    method InsertIndexPage(result: StatementResult, site: Site, now: string)
      requires Valid() && site.id in SiteIds(sites)
      modifies this`pages
      ensures Valid()
      ensures pages == if result.Completes? then AddIndexPage(old(pages), site, now) else old(pages)
    {
      if result.Completes? {
        AddIndexPageKeeps(Snapshot(), site, now);
        pages := AddIndexPage(pages, site, now);
      }
    }

    method InsertLayout(result: StatementResult, site: Site, name: string, content: string, now: string)
      requires Valid() && site.id in SiteIds(sites)
      modifies this`layouts
      ensures Valid()
      ensures layouts == if result.Completes? then AddLayout(old(layouts), site, name, content, now) else old(layouts)
    {
      if result.Completes? {
        AddLayoutKeeps(Snapshot(), site, name, content, now);
        layouts := AddLayout(layouts, site, name, content, now);
      }
    }

    method InsertStyle(result: StatementResult, site: Site, now: string)
      requires Valid() && site.id in SiteIds(sites)
      modifies this`styles
      ensures Valid()
      ensures styles == if result.Completes? then AddStyle(old(styles), site, now) else old(styles)
    {
      if result.Completes? {
        AddStyleKeeps(Snapshot(), site, now);
        styles := AddStyle(styles, site, now);
      }
    }

    /** Issues the four seeding inserts for a site just added and read back,
        stopping at the first one that throws; one that reports failure adds
        nothing and the next is still issued. */
    method SeedChildren(run: StoreRun, site: Site, now: string) returns (resp: Response)
      requires Valid() && site.id in SiteIds(sites) && run.siteSelect.Completes?
      modifies this`pages, this`layouts, this`styles
      ensures Valid()
      ensures pages == SeededPages(run, old(pages), site, now)
      ensures layouts == SeededLayouts(run, old(layouts), site, now)
      ensures styles == SeededStyles(run, old(styles), site, now)
      ensures resp == SeedResponse(run, site)
    {
      if run.indexPage.Throws? {
        return ErrorResponse(run.indexPage.message);
      }
      InsertIndexPage(run.indexPage, site, now);
      resp := SeedLayouts(run, site, now);
    }

    /** The header insert, then the rest. */
    method SeedLayouts(run: StoreRun, site: Site, now: string) returns (resp: Response)
      requires Valid() && site.id in SiteIds(sites)
      requires run.siteSelect.Completes? && !run.indexPage.Throws?
      modifies this`layouts, this`styles
      ensures Valid()
      ensures layouts == SeededLayouts(run, old(layouts), site, now)
      ensures styles == SeededStyles(run, old(styles), site, now)
      ensures resp == SeedResponse(run, site)
    {
      if run.header.Throws? {
        return ErrorResponse(run.header.message);
      }
      InsertLayout(run.header, site, "header", HeaderContent, now);
      resp := SeedFooter(run, site, now);
    }

    /** The footer insert, then the style. */
    method SeedFooter(run: StoreRun, site: Site, now: string) returns (resp: Response)
      requires Valid() && site.id in SiteIds(sites)
      requires run.siteSelect.Completes? && !run.indexPage.Throws? && !run.header.Throws?
      modifies this`layouts, this`styles
      ensures Valid()
      ensures layouts == if SeedAdded(run, 2) then AddLayout(old(layouts), site, "footer", FooterContent, now)
                         else old(layouts)
      ensures styles == SeededStyles(run, old(styles), site, now)
      ensures resp == SeedResponse(run, site)
    {
      if run.footer.Throws? {
        return ErrorResponse(run.footer.message);
      }
      InsertLayout(run.footer, site, "footer", FooterContent, now);
      resp := SeedStyle(run, site, now);
    }

    /** The style insert, last of the four. */
    method SeedStyle(run: StoreRun, site: Site, now: string) returns (resp: Response)
      requires Valid() && site.id in SiteIds(sites)
      requires run.siteSelect.Completes? && !run.indexPage.Throws?
      requires !run.header.Throws? && !run.footer.Throws?
      modifies this`styles
      ensures Valid()
      ensures styles == SeededStyles(run, old(styles), site, now)
      ensures resp == SeedResponse(run, site)
    {
      if run.style.Throws? {
        return ErrorResponse(run.style.message);
      }
      InsertStyle(run.style, site, now);
      return Created(site);
    }

    /** Reads the new site back, then seeds its children. */
    method SeedSite(run: StoreRun, site: Site, now: string) returns (resp: Response)
      requires Valid() && site.id in SiteIds(sites)
      modifies this`pages, this`layouts, this`styles
      ensures Valid()
      ensures pages == SeededPages(run, old(pages), site, now)
      ensures layouts == SeededLayouts(run, old(layouts), site, now)
      ensures styles == SeededStyles(run, old(styles), site, now)
      ensures resp == SeedResponse(run, site)
    {
      match run.siteSelect {
        case ReportsFailure => return Failed(500, SiteFetchFailed);
        case Throws(m) => return ErrorResponse(m);
        case Completes =>
      }
      resp := SeedChildren(run, site, now);
    }

    /** `POST /api/sites`. */
    method Post(run: StoreRun, body: Outcome<CreateSitePayload>, now: string) returns (resp: Response)
      requires Valid()
      modifies this
      ensures Valid()
      // Nothing reached the store: the tables are untouched.
      ensures run.connect.Some? ==> resp == ErrorResponse(run.connect.value) && Snapshot() == old(Snapshot())
      ensures run.connect.None? && body.Thrown? ==>
        resp == ErrorResponse(body.message) && Snapshot() == old(Snapshot())
      ensures run.connect.None? && body.Ok? && Validate(body.value).Rejected? ==>
        resp == Failed(400, Validate(body.value).message) && Snapshot() == old(Snapshot())
      // The site insert is refused: nothing is added.
      ensures run.connect.None? && body.Ok? && Validate(body.value).Accepted? ==>
        var v := Validate(body.value).site;
        && (SlugInUse(old(sites), v.slug) ==>
              resp == ErrorResponse(SlugViolation) && Snapshot() == old(Snapshot()))
        && (!SlugInUse(old(sites), v.slug) && run.siteInsert.ReportsFailure? ==>
              resp == Failed(500, SiteInsertFailed) && Snapshot() == old(Snapshot()))
        && (!SlugInUse(old(sites), v.slug) && run.siteInsert.Throws? ==>
              resp == ErrorResponse(run.siteInsert.message) && Snapshot() == old(Snapshot()))
      // The site insert succeeds: the site row stays whatever follows, and each
      // seeded row is there exactly when its statement was issued and completed.
      ensures run.connect.None? && body.Ok? && Validate(body.value).Accepted? ==>
        var v := Validate(body.value).site;
        var site := Site(NextId(SiteIds(old(sites))), v.slug, v.name, v.status, now, now);
        !SlugInUse(old(sites), v.slug) && run.siteInsert.Completes? ==>
          && sites == old(sites) + [SiteRow(site, None)]
          && pages == SeededPages(run, old(pages), site, now)
          && layouts == SeededLayouts(run, old(layouts), site, now)
          && styles == SeededStyles(run, old(styles), site, now)
          && resp == SeedResponse(run, site)
      // A 201 carries the validated values under an id no earlier row had.
      ensures resp.Created? ==>
        && body.Ok? && Validate(body.value).Accepted?
        && resp.site.slug == Validate(body.value).site.slug
        && resp.site.name == Validate(body.value).site.name
        && resp.site.status == Validate(body.value).site.status
        && resp.site.id !in SiteIds(old(sites))
        && sites == old(sites) + [SiteRow(resp.site, None)]
      ensures Code(resp) in {201, 400, 409, 500}
    {
      if run.connect.Some? {
        return ErrorResponse(run.connect.value);
      }
      if body.Thrown? {
        return ErrorResponse(body.message);
      }
      var checked := Validate(body.value);
      if checked.Rejected? {
        return Failed(400, checked.message);
      }
      var v := checked.site;

      // INSERT INTO Sites
      if SlugInUse(sites, v.slug) {
        return ErrorResponse(SlugViolation);
      }
      match run.siteInsert {
        case ReportsFailure => return Failed(500, SiteInsertFailed);
        case Throws(m) => return ErrorResponse(m);
        case Completes =>
      }
      var site := InsertSite(v, now);

      // SELECT the new row, then seed its children.
      resp := SeedSite(run, site, now);
    }
  }
}
