/** The read-only entity services: each is a filtered query over one table in
    which soft-deleted rows are invisible. A store call that throws is the
    `fault` parameter (the message of the thrown Error); whether a service
    swallows it or lets it reach the caller follows each service. */

module SiteService {
  import opened Common
  import opened Ordering
  import opened Records

  /** The live sites, in row order. */
  function LiveSites(rows: seq<SiteRow>): (r: seq<Site>)
    ensures |r| <= |rows|
    ensures forall s :: s in r <==> SiteRow(s, None) in rows
  {
    if rows == [] then []
    else
      assert rows == [rows[0]] + rows[1..];
      (if rows[0].deletedAt.None? then [rows[0].site] else []) + LiveSites(rows[1..])
  }

  /** `getSites`: every live site with its six selected columns; a store error
      is swallowed and gives the empty list. */
  function GetSites(t: Tables, fault: Option<string>): (r: seq<Site>)
    ensures fault.Some? ==> r == []
    ensures fault.None? ==> forall s :: s in r <==> SiteRow(s, None) in t.sites
  {
    if fault.Some? then [] else LiveSites(t.sites)
  }

  /** `getSite`: the live site with the given id, or null; a store error gives
      null too. */
  function GetSite(t: Tables, id: nat, fault: Option<string>): (r: Option<Site>)
    ensures r.Some? ==> fault.None? && SiteRow(r.value, None) in t.sites && r.value.id == id
    ensures r.None? <==>
      fault.Some? || forall row :: row in t.sites && row.deletedAt.None? ==> row.site.id != id
  {
    if fault.Some? then None
    else match FindFirst(t.sites, (row: SiteRow) => row.deletedAt.None? && row.site.id == id)
      case None => None
      case Some(k) => Some(t.sites[k].site)
  }

  /** `getSiteBySlug`: the live site with the given slug, or null; a store error
      gives null. */
  function GetSiteBySlug(t: Tables, slug: string, fault: Option<string>): (r: Option<Site>)
    ensures r.Some? ==> fault.None? && SiteRow(r.value, None) in t.sites && r.value.slug == slug
    ensures r.None? <==>
      fault.Some? || forall row :: row in t.sites && row.deletedAt.None? ==> row.site.slug != slug
  {
    if fault.Some? then None
    else match FindFirst(t.sites, (row: SiteRow) => row.deletedAt.None? && row.site.slug == slug)
      case None => None
      case Some(k) => Some(t.sites[k].site)
  }

  /** `getSiteId`: the id of the site `getSiteBySlug` finds, except that
      `|| null` also turns a falsy id (0) into null; a store error gives null. */
  function GetSiteId(t: Tables, slug: string, fault: Option<string>): (r: Option<nat>)
    ensures r.Some? ==> r.value > 0
    ensures r.Some? <==> (var s := GetSiteBySlug(t, slug, fault); s.Some? && s.value.id != 0)
    ensures r.Some? ==> r == Some(GetSiteBySlug(t, slug, fault).value.id)
  {
    if fault.Some? then None
    else match FindFirst(t.sites, (row: SiteRow) => row.deletedAt.None? && row.site.slug == slug)
      case None => None
      case Some(k) => if t.sites[k].site.id != 0 then Some(t.sites[k].site.id) else None
  }
}

module PageService {
  import opened Common
  import opened Ordering
  import opened Records
  import SiteService

  /** The summaries of the live pages of one site, in row order. */
  function LivePagesOf(rows: seq<PageRow>, siteId: nat): (r: seq<PageSummary>)
    ensures |r| <= |rows|
    ensures forall s :: s in r <==>
      exists p :: PageRow(p, None) in rows && p.siteId == siteId && Summary(p) == s
  {
    if rows == [] then []
    else
      assert rows == [rows[0]] + rows[1..];
      var head := rows[0];
      (if head.deletedAt.None? && head.page.siteId == siteId then [Summary(head.page)] else [])
        + LivePagesOf(rows[1..], siteId)
  }

  /** `getPage`: the live page with the given id, without its `site_id`, or
      null. A store error is not caught. */
  function GetPage(t: Tables, id: nat, fault: Option<string>): (r: Outcome<Option<PageSummary>>)
    ensures fault.Some? ==> r == Thrown(fault.value)
    ensures fault.None? ==> r.Ok?
    ensures r.Ok? && r.value.Some? ==>
      exists p :: PageRow(p, None) in t.pages && p.id == id && Summary(p) == r.value.value
    ensures r.Ok? && r.value.None? ==>
      forall row :: row in t.pages && row.deletedAt.None? ==> row.page.id != id
  {
    if fault.Some? then Thrown(fault.value)
    else match FindFirst(t.pages, (row: PageRow) => row.deletedAt.None? && row.page.id == id)
      case None => Ok(None)
      case Some(k) => Ok(Some(Summary(t.pages[k].page)))
  }

  /** `getPages`: the live pages of a site; a store error is swallowed and gives
      the empty list. */
  function GetPages(t: Tables, siteId: nat, fault: Option<string>): (r: seq<PageSummary>)
    ensures fault.Some? ==> r == []
    ensures fault.None? ==> forall s :: s in r <==>
      exists p :: PageRow(p, None) in t.pages && p.siteId == siteId && Summary(p) == s
  {
    if fault.Some? then [] else LivePagesOf(t.pages, siteId)
  }

  /** `getPageBySlug`: resolves the site slug with `getSiteId` (which swallows
      its own store errors), then the live page of that site with the page slug.
      `connect` and `pageQuery` are errors of the service's own store calls,
      which are not caught. */
  function GetPageBySlug(t: Tables, siteSlug: string, pageSlug: string,
                         connect: Option<string>, siteLookup: Option<string>,
                         pageQuery: Option<string>): (r: Outcome<Option<PageSummary>>)
    ensures connect.Some? ==> r == Thrown(connect.value)
    ensures connect.None? && SiteService.GetSiteId(t, siteSlug, siteLookup).None? ==> r == Ok(None)
    ensures connect.None? && SiteService.GetSiteId(t, siteSlug, siteLookup).Some? ==>
      (pageQuery.Some? <==> r.Thrown?)
    ensures r.Ok? && r.value.Some? ==>
      exists p :: PageRow(p, None) in t.pages && p.slug == pageSlug && Summary(p) == r.value.value
        && Some(p.siteId) == SiteService.GetSiteId(t, siteSlug, siteLookup)
    ensures r.Ok? && r.value.None? && SiteService.GetSiteId(t, siteSlug, siteLookup).Some? ==>
      forall row :: row in t.pages && row.deletedAt.None?
        && Some(row.page.siteId) == SiteService.GetSiteId(t, siteSlug, siteLookup)
        ==> row.page.slug != pageSlug
  {
    if connect.Some? then Thrown(connect.value)
    else match SiteService.GetSiteId(t, siteSlug, siteLookup)
      case None => Ok(None)
      case Some(siteId) =>
        if pageQuery.Some? then Thrown(pageQuery.value)
        else match FindFirst(t.pages, (row: PageRow) =>
                row.deletedAt.None? && row.page.siteId == siteId && row.page.slug == pageSlug)
          case None => Ok(None)
          case Some(k) => Ok(Some(Summary(t.pages[k].page)))
  }
}

module LayoutService {
  import opened Common
  import opened Ordering
  import opened Records

  /** `getLayout`: the live layout with the given id, or null. A store error is
      not caught. */
  function GetLayout(t: Tables, id: nat, fault: Option<string>): (r: Outcome<Option<Layout>>)
    ensures fault.Some? ==> r == Thrown(fault.value)
    ensures fault.None? ==> r.Ok?
    ensures r.Ok? && r.value.Some? ==> LayoutRow(r.value.value, None) in t.layouts && r.value.value.id == id
    ensures r.Ok? && r.value.None? ==>
      forall row :: row in t.layouts && row.deletedAt.None? ==> row.layout.id != id
  {
    if fault.Some? then Thrown(fault.value)
    else match FindFirst(t.layouts, (row: LayoutRow) => row.deletedAt.None? && row.layout.id == id)
      case None => Ok(None)
      case Some(k) => Ok(Some(t.layouts[k].layout))
  }

  /** `getLayoutByName`: a live layout of the site with the given name, or null.
      A store error is not caught. */
  function GetLayoutByName(t: Tables, siteId: nat, name: string, fault: Option<string>): (r: Outcome<Option<Layout>>)
    ensures fault.Some? ==> r == Thrown(fault.value)
    ensures fault.None? ==> r.Ok?
    ensures r.Ok? && r.value.Some? ==>
      LayoutRow(r.value.value, None) in t.layouts && r.value.value.siteId == siteId && r.value.value.name == name
    ensures r.Ok? && r.value.None? ==>
      forall row :: row in t.layouts && row.deletedAt.None? && row.layout.siteId == siteId ==> row.layout.name != name
  {
    if fault.Some? then Thrown(fault.value)
    else match FindFirst(t.layouts, (row: LayoutRow) =>
            row.deletedAt.None? && row.layout.siteId == siteId && row.layout.name == name)
      case None => Ok(None)
      case Some(k) => Ok(Some(t.layouts[k].layout))
  }
}

module StyleService {
  import opened Common
  import opened Ordering
  import opened Records

  /** `getStyle`: a live style of the site, or null. A store error is not
      caught. */
  function GetStyle(t: Tables, siteId: nat, fault: Option<string>): (r: Outcome<Option<Style>>)
    ensures fault.Some? ==> r == Thrown(fault.value)
    ensures fault.None? ==> r.Ok?
    ensures r.Ok? && r.value.Some? ==> StyleRow(r.value.value, None) in t.styles && r.value.value.siteId == siteId
    ensures r.Ok? && r.value.None? ==>
      forall row :: row in t.styles && row.deletedAt.None? ==> row.style.siteId != siteId
  {
    if fault.Some? then Thrown(fault.value)
    else match FindFirst(t.styles, (row: StyleRow) => row.deletedAt.None? && row.style.siteId == siteId)
      case None => Ok(None)
      case Some(k) => Ok(Some(t.styles[k].style))
  }
}
