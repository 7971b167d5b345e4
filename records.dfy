/** The four tables of the record store (Sites, Pages, Layouts, Styles) and the
    record shapes the code reads from them. Every stored row carries its
    soft-delete mark (`deleted_at`); a row is live while that mark is absent. */
module Records {
  import opened Common

  datatype Status = Draft | Published | Private

  /** The text the store and the JSON bodies use for a status. */
  function StatusName(s: Status): string {
    match s
    case Draft => "draft"
    case Published => "published"
    case Private => "private"
  }

  /** Reads a status from its text; anything outside the three names is refused. */
  function ParseStatus(text: string): (r: Option<Status>)
    ensures r.Some? <==> text in {"draft", "published", "private"}
    ensures r.Some? ==> StatusName(r.value) == text
  {
    if text == "draft" then Some(Draft)
    else if text == "published" then Some(Published)
    else if text == "private" then Some(Private)
    else None
  }

  lemma ParseStatusName(s: Status)
    ensures ParseStatus(StatusName(s)) == Some(s)
  {
  }

  /** A site as the queries select it: every column but `deleted_at`. */
  datatype Site = Site(id: nat, slug: string, name: string, status: Status,
                       createdAt: string, updatedAt: string)

  datatype Page = Page(id: nat, siteId: nat, slug: string, title: string,
                       htmlContent: Option<string>, createdAt: string, updatedAt: string,
                       status: Status, description: Option<string>)

  datatype Layout = Layout(id: nat, siteId: nat, name: string, htmlContent: string,
                           createdAt: string, updatedAt: string)

  datatype Style = Style(id: nat, siteId: nat, cssContent: string,
                         createdAt: string, updatedAt: string)

  /** Stored rows: the record and its soft-delete mark. */
  datatype SiteRow = SiteRow(site: Site, deletedAt: Option<string>)
  datatype PageRow = PageRow(page: Page, deletedAt: Option<string>)
  datatype LayoutRow = LayoutRow(layout: Layout, deletedAt: Option<string>)
  datatype StyleRow = StyleRow(style: Style, deletedAt: Option<string>)

  /** The whole store, each table in row (insertion) order. */
  datatype Tables = Tables(sites: seq<SiteRow>, pages: seq<PageRow>,
                           layouts: seq<LayoutRow>, styles: seq<StyleRow>)

  /** The columns the page queries select: everything but `site_id` and
      `deleted_at`. */
  datatype PageSummary = PageSummary(id: nat, title: string, slug: string,
                                     htmlContent: Option<string>, createdAt: string,
                                     updatedAt: string, status: Status,
                                     description: Option<string>)

  function Summary(p: Page): PageSummary {
    PageSummary(p.id, p.title, p.slug, p.htmlContent, p.createdAt, p.updatedAt,
                p.status, p.description)
  }

  function SiteIds(rows: seq<SiteRow>): seq<nat> {
    seq(|rows|, i requires 0 <= i < |rows| => rows[i].site.id)
  }

  function PageIds(rows: seq<PageRow>): seq<nat> {
    seq(|rows|, i requires 0 <= i < |rows| => rows[i].page.id)
  }

  function LayoutIds(rows: seq<LayoutRow>): seq<nat> {
    seq(|rows|, i requires 0 <= i < |rows| => rows[i].layout.id)
  }

  function StyleIds(rows: seq<StyleRow>): seq<nat> {
    seq(|rows|, i requires 0 <= i < |rows| => rows[i].style.id)
  }

  /** The row id the store assigns to the next insert: one past the largest
      id in the table (SQLite's rowid rule), so always positive and fresh. */
  function NextId(ids: seq<nat>): (n: nat)
    ensures n > 0
    ensures forall i :: 0 <= i < |ids| ==> ids[i] < n
  {
    if ids == [] then 1
    else
      var rest := NextId(ids[1..]);
      if ids[0] < rest then rest else ids[0] + 1
  }
}
