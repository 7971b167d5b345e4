# careemo-app core, modelled in Dafny

careemo-app is a small CMS. Administrators sign in to an `/admin` area. There they create sites, whose pages, layouts and style sheet live in four soft-delete tables (Sites, Pages, Layouts, Styles), and they upload media to an object bucket. This project models the parts of it that decide things:

- the `/api/sites` route, which lists the live sites and creates a site with its four seeded rows, one statement at a time and with no rollback;
- the read-only services over the four tables, in which soft-deleted rows are invisible;
- the page order of the admin page list and page sidebar: the first `index` page, then the other pages by slug;
- the sidebar's highlighted entry;
- the admin gate: the middleware and its `authorized` callback, the credential check, and the `jwt` and `session` callbacks;
- the redirect and rewrite rules of the application configuration, and the tag-manager environment fallback;
- the media routes: key and public-URL derivation, the upload handler over the bucket, the listing's filter and sort, and the directory names of a delimited listing;
- the string rewriting `formatDateTime` applies before parsing a date.

Files:

| file | modules |
|---|---|
| `common.dfy` | `Common`: Option/Outcome, JS truthiness, string predicates, decimal rendering of ids |
| `ordering.dfy` | `Ordering`: `find`, `filter` and `sort` as functions, and sortedness under a total preorder |
| `records.dfy` | `Records`: the record shapes, status names, table rows with their `deleted_at` mark, row ids |
| `services.dfy` | `SiteService`, `PageService`, `LayoutService`, `StyleService` |
| `sites_route.dfy` | `SitesRoute`: `GET`, validation, error classification, and the class `SiteStore`, whose `Post` appends to the four tables |
| `page_order.dfy` | `PageOrder`, `PageList`, `PageSidebar` |
| `routing.dfy` | `Routing` |
| `access.dfy` | `Access` (middleware) and `Auth` |
| `media.dfy` | `Media`: keys and URLs, the class `Bucket` and its `Upload`, the listing, and directory names |
| `dates.dfy` | `Dates` |

Everything outside the program is a parameter of the model:

- A store call that throws is an `Option<string>` holding the thrown message. For `POST /api/sites` this is one `StatementResult` per statement.
- What the bucket's `put` and `list` return are parameters.
- `new URL(endpoint).hostname` is the parameter `hostname`, which may throw.
- `localeCompare` is a parameter `le`. The lemmas that need it to be a total preorder say so.
- The date parser and formatter are parameters.
- Whether a session or token is present is a boolean.
- The current time is the string `now`.

## Model

| member | source | states |
|---|---|---|
| Records.ParseStatus | src/app/api/sites/route.ts:34-39 | a status text is accepted exactly when it is `draft`, `published` or `private`, and the accepted status has that name |
| Records.ParseStatusName | src/app/api/sites/route.ts:34 | every status is accepted back from its own name |
| Records.NextId | src/app/api/sites/route.ts:41-52 | the row id of a new insert is positive and larger than every id already in the table |
| SiteService.LiveSites | src/services/SiteService.tsx:7-19 | a site is listed exactly when its row is in the table without a `deleted_at` mark |
| SiteService.GetSites | src/services/SiteService.tsx:4-24 | exactly the live sites; a store error gives the empty list |
| SiteService.GetSite | src/services/SiteService.tsx:26-38 | a found site is live and has the id; null exactly when the store fails or no live row has the id |
| SiteService.GetSiteBySlug | src/services/SiteService.tsx:52-64 | a found site is live and has the slug; null exactly when the store fails or no live row has the slug |
| SiteService.GetSiteId | src/services/SiteService.tsx:40-50 | the id of the site found by slug, except that the null fallback also turns an id of 0 into null; a store error gives null |
| PageService.LivePagesOf | src/services/PageService.tsx:17-22 | a summary is listed exactly when a live page of the site has it |
| PageService.GetPage | src/services/PageService.tsx:5-12 | the store error propagates; a found page is live and has the id; null only when no live page has it |
| PageService.GetPages | src/services/PageService.tsx:14-27 | exactly the live pages of the site, without `site_id`; a store error gives the empty list |
| PageService.GetPageBySlug | src/services/PageService.tsx:29-40 | null when the site slug does not resolve; otherwise the live page of that site with the page slug, or null when there is none; its own store errors propagate |
| LayoutService.GetLayout | src/services/LayoutService.tsx:4-11 | the store error propagates; a found layout is live and has the id; null only when no live layout has it |
| LayoutService.GetLayoutByName | src/services/LayoutService.tsx:13-20 | a found layout is live and has both the site id and the name; null only when no live layout of the site has the name |
| StyleService.GetStyle | src/services/StyleService.tsx:4-11 | a found style is live and belongs to the site; null only when the site has no live style; store errors propagate |
| SitesRoute.ErrorResponse | src/app/api/sites/route.ts:90-100 | 409 exactly when the message contains `UNIQUE constraint failed`, otherwise 500 carrying the message |
| SitesRoute.SlugViolationIsConflict | src/app/api/sites/route.ts:94-97 | the store's duplicate-slug error is answered with 409 |
| SitesRoute.NewerFirstTotalPreorder | src/app/api/sites/route.ts:11 | `created_at DESC` is a total preorder on sites |
| SitesRoute.ListSites | src/app/api/sites/route.ts:6-21 | a store error gives 500 with its message; otherwise the live sites and nothing else, as a permutation, newest first |
| SitesRoute.Validate | src/app/api/sites/route.ts:28-39 | a missing or empty slug or name is refused first; an absent or empty status defaults to `draft`; any other status must be one of the three names; an accepted site carries the given slug, name and status |
| SitesRoute.AddIndexPage | src/app/api/sites/route.ts:63-72 | one live row is appended: page `index` of the site, titled with the site name, content `<!-- INDEX PAGE -->`, status draft |
| SitesRoute.AddLayout | src/app/api/sites/route.ts:74-82 | one live layout row of the site is appended with the given name and content |
| SitesRoute.AddStyle | src/app/api/sites/route.ts:84-86 | one live style row of the site is appended with content `/* CSS */` |
| SitesRoute.SeedResponse | src/app/api/sites/route.ts:53-89 | 201 with the new site exactly when the site was read back and no seeding insert threw; otherwise 409 or 500 |
| SitesRoute.SiteIdFoundIffLive | src/services/SiteService.tsx:40-50 | in a consistent store, `getSiteId` finds an id exactly when a live site has the slug |
| SitesRoute.AddIndexPageKeeps | src/app/api/sites/route.ts:69-72 | seeding the index page of an existing site keeps the store consistent |
| SitesRoute.AddLayoutKeeps | src/app/api/sites/route.ts:74-82 | seeding a layout of an existing site keeps the store consistent |
| SitesRoute.AddStyleKeeps | src/app/api/sites/route.ts:84-86 | seeding the style of an existing site keeps the store consistent |
| SitesRoute.SiteStore.InsertSite | src/app/api/sites/route.ts:41-42 | the Sites table gains exactly one live row with the validated values, under an id no earlier row has; the store stays consistent |
| SitesRoute.SiteStore.InsertIndexPage | src/app/api/sites/route.ts:69-72 | the page row is appended only when the statement completes; the store stays consistent |
| SitesRoute.SiteStore.InsertLayout | src/app/api/sites/route.ts:74-82 | the layout row is appended only when the statement completes; the store stays consistent |
| SitesRoute.SiteStore.InsertStyle | src/app/api/sites/route.ts:84-86 | the style row is appended only when the statement completes; the store stays consistent |
| SitesRoute.SiteStore.SeedChildren | src/app/api/sites/route.ts:63-89 | once the site is read back, the index page insert runs first; a throw there stops the seeding with that error and adds nothing; otherwise the layouts and the style follow |
| SitesRoute.SiteStore.SeedLayouts | src/app/api/sites/route.ts:74-89 | the header insert runs before the footer and the style; a throw there stops the rest |
| SitesRoute.SiteStore.SeedFooter | src/app/api/sites/route.ts:79-89 | the footer layout is appended exactly when its statement completes; a throw stops the style insert |
| SitesRoute.SiteStore.SeedStyle | src/app/api/sites/route.ts:84-89 | the style is appended exactly when its statement completes; the answer is 201 with the site unless that statement throws |
| SitesRoute.SiteStore.SeedSite | src/app/api/sites/route.ts:53-89 | the four seeding inserts run in order; each row is present exactly when its statement was issued and completed; the first throw stops the rest, and nothing is rolled back |
| SitesRoute.SiteStore.Post | src/app/api/sites/route.ts:24-102 | a failed connect, an unreadable body, a 400, a duplicate slug (409) or a failed site insert (500) leaves every table unchanged; after a successful site insert the site row stays whatever follows; exactly the seeded rows whose statements completed are added; a 201 carries the validated slug, name and status under a fresh id; the status is one of 201, 400, 409 and 500; the store invariant is kept |
| Dates.ReplaceFirst | src/lib/DateFormatter.tsx:19 | only the first occurrence of the character is replaced; a string without it is unchanged |
| Dates.Normalize | src/lib/DateFormatter.tsx:16-23 | a 19-character string with a space at index 10 gets its first space turned into `T` and a `Z` appended; otherwise a string with a `T` and no final `Z` gets a `Z`; any other string is unchanged |
| Dates.NormalizeStoreTimestamp | src/lib/DateFormatter.tsx:18-19 | a `YYYY-MM-DD HH:MM:SS` timestamp becomes `YYYY-MM-DDTHH:MM:SSZ`, which a second pass leaves alone |
| Dates.FormatDateTime | src/lib/DateFormatter.tsx:9-42 | null, undefined, empty and non-date inputs give `''`; an invalid parse or an invalid `Date` gives `''`; a formatter that throws gives `''`; otherwise the formatter's text for the parsed instant or the `Date`'s instant |
| Dates.FormatInstant | src/lib/DateFormatter.tsx:30-41 | an invalid date or a formatter that throws gives `''`; otherwise the formatter's text |
| Ordering.FindFirst | src/components/PageList.tsx:22 | the first position whose element satisfies the predicate; none exactly when no element does |
| Ordering.Filter | src/components/PageList.tsx:23 | every kept element satisfies the predicate; every satisfying element is kept as often as it occurs; nothing else is kept |
| Ordering.FilterKeepsAll | src/components/PageList.tsx:23 | a list whose every element passes is kept as it is |
| Ordering.FilterDropsOne | src/components/PageList.tsx:23 | when all elements but one pass, filtering drops exactly that one |
| Ordering.Sort | src/components/PageList.tsx:23 | the sorted list is a permutation of its input |
| Ordering.SortSorted | src/components/PageList.tsx:23 | under a total preorder, the sorted list is in order |
| Ordering.LexLeTotalPreorder | src/app/api/sites/route.ts:11 | the code-point order on stored text is total and transitive |
| PageOrder.Lead | src/components/PageList.tsx:22-25 | one entry exactly when there is an index page, and then it is the first one |
| PageOrder.Others | src/components/PageList.tsx:23 | exactly the non-index pages, as a multiset |
| PageOrder.OrderPages | src/components/PageList.tsx:21-25 | an index page leads exactly when the input has one, and it is the first such page; no later entry is an index page; the rest are exactly the non-index pages, as a multiset |
| PageOrder.OrderPagesSorted | src/components/PageList.tsx:23 | under a total preorder, the pages after the index page are in ascending slug order |
| PageOrder.BySlugTotalPreorder | src/components/PageList.tsx:23 | comparing pages by slug under a total preorder on strings is a total preorder on pages |
| PageOrder.FilterWithoutIndex | src/components/PageList.tsx:23 | without an index page, the filter keeps every page |
| PageOrder.IndexSplit | src/components/PageList.tsx:22-23 | with at most one index page, the page `find` returns and the filtered pages make up the whole input |
| PageOrder.OrderPagesPermutation | src/components/PageList.tsx:22-25 | with at most one index page, the ordered list is a permutation of the input |
| PageOrder.OrderPagesNonEmpty | src/components/PageList.tsx:25-31 | a non-empty page list never gives an empty ordered list, so the inner "no pages yet" branch is unreachable |
| PageOrder.OrderPagesWithoutIndex | src/components/PageList.tsx:23-25 | without an index page the result is a slug-sorted permutation of the input |
| PageOrder.EditPageHrefInjective | src/components/PageList.tsx:53 | two pages of a site have the same editor link exactly when they have the same id |
| PageList.Badges | src/components/PageList.tsx:59-73 | exactly one badge is shown, and it matches the status |
| PageList.Row | src/components/PageList.tsx:45-75 | the home icon appears exactly for the index page; the link is the page's editor; one badge matches its status |
| PageList.Rows | src/components/PageList.tsx:45-77 | one row per ordered page, in order, each with its slug, editor link, badge and icon |
| PageList.Render | src/components/PageList.tsx:10-83 | the "no pages" message exactly when `getPages` gives none; otherwise the table of the ordered pages; never the inner empty message |
| PageSidebar.Link | src/components/PageSidebar.tsx:24-25 | an entry is active exactly when the current path equals its link |
| PageSidebar.LayoutLink | src/components/PageSidebar.tsx:42-81 | a layout entry is present exactly when the lookup found a layout, linking to its editor |
| PageSidebar.Render | src/components/PageSidebar.tsx:7-125 | the layout and style lookup errors propagate in the order awaited; the page entries are the ordered pages' editor links (`PageLinks`); the header and footer entries link to the editors of the layouts found; header, footer and css entries are present exactly when their lookups found a record; the media entry is always there |
| PageSidebar.PageLinks | src/components/PageSidebar.tsx:23-39 | one entry per page, in the given order, titled with the slug and linking to the page's editor |
| PageSidebar.LinksAgree | src/components/PageSidebar.tsx:23-124 | for any sidebar whose entries have the rendered shapes, the highlighted entries belong to one group and active page entries lead to one page |
| PageSidebar.GroupHrefsDiffer | src/components/PageSidebar.tsx:24-107 | page, layout, style and media links never coincide |
| PageSidebar.ActiveEntriesAgree | src/components/PageSidebar.tsx:23-124 | the highlighted entries all belong to one group, and highlighted page entries all lead to one page |
| PageSidebar.RequestedPageIsActive | src/components/PageSidebar.tsx:17-25 | a signed-in request for a page's editor passes the gate with its path in `x-current-path`, and the sidebar then highlights exactly the entries of that page |
| Routing.MatchSlug | next.config.mjs:27 | a match is one non-empty segment without `/`, and the path is `/`, that segment, then the suffix |
| Routing.MatchSlugComplete | next.config.mjs:27 | every path of that shape is matched, and the segment is recovered |
| Routing.Route | next.config.mjs:24-41 | a redirect goes from `/{s}/index` to `/{s}` and is permanent; a rewrite goes from `/{s}/style.css` to `/api/{s}/css` |
| Routing.RedirectIndex | next.config.mjs:26-30 | `/{s}/index` redirects permanently to `/{s}` |
| Routing.RewriteStyle | next.config.mjs:36-39 | `/{s}/style.css` is rewritten to `/api/{s}/css` |
| Routing.UnchangedIffNoShape | next.config.mjs:24-41 | a path is left alone exactly when it has neither shape |
| Routing.RedirectSettles | next.config.mjs:26-30 | the redirect target is not redirected or rewritten again |
| Routing.RewriteSettles | next.config.mjs:36-39 | the rewrite target is not redirected or rewritten again |
| Routing.TagManagerId | next.config.mjs:8 | the server variable when it is non-empty, otherwise the public one |
| Routing.TagManagerIdExposed | next.config.mjs:8 | an id is exposed exactly when either variable holds one, and the server variable wins |
| Access.UnderAdmin | src/middleware.ts:7 | the matcher takes `/admin` itself and exactly the paths that continue it with `/` |
| Access.Authorized | src/middleware.ts:36-47 | the login page is always authorized; any other path exactly when a token is present |
| Access.Middleware | src/middleware.ts:6-47 | paths outside `/admin` are untouched; an unauthorized request goes to `/admin/login`; a token on `/admin/login` goes to `/admin`; anything else passes on with its headers kept and `x-current-path` set to the path |
| Access.AuthorizedIffToken | src/middleware.ts:36-47 | the login page is always authorized; any other admin path is authorized exactly when a token is present |
| Access.RedirectSettles | src/middleware.ts:12-52 | the target of either redirect is let through, so there is no redirect loop, with or without a token |
| Auth.Authorize | src/lib/Auth.tsx:12-30 | the fixed user with id `1` exactly when credentials are given, both variables are non-empty, and username and password both match; otherwise null |
| Auth.AuthorizeSinglePair | src/lib/Auth.tsx:17-24 | at most one credential pair is accepted; none when either variable is unset or empty, and never an empty password |
| Auth.Jwt | src/lib/Auth.tsx:43-48 | on sign-in the token gets the user's id; otherwise the token is unchanged |
| Auth.SessionCallback | src/lib/Auth.tsx:49-54 | when the session has a user, that user gets the token's id |
| Media.PathPrefix | src/app/api/upload/route.ts:26 | `images/{siteId}/` for a non-empty site id, else `common/` |
| Media.ObjectKey | src/app/api/upload/route.ts:26-30 | the key is the prefix followed by the file name as given |
| Media.ObjectKeySameName | src/app/api/upload/route.ts:26-39 | within one folder two uploads share a key exactly when they share a file name, so the later one overwrites; only the empty name gives the folder's own key |
| Media.JoinUrl | src/app/api/upload/route.ts:52 | the base and the key, with `/` inserted only when the base does not end in one |
| Media.PublicUrl | src/app/api/upload/route.ts:50-61 | the public base joined with the key when the base is set; else `https://{bucket}.{hostname}/{key}` when bucket and endpoint are both set; else the key; it throws exactly when the hostname parse is reached and throws |
| Media.PublicUrlEndsWithKey | src/app/api/upload/route.ts:50-61 | whichever rule applies, the URL ends with the key |
| Media.PublicUrlBaseJoin | src/app/api/upload/route.ts:51-52 | the joined URL starts with the base, has `/` just before the key, and determines the key |
| Media.ErrorMessage | src/app/api/upload/route.ts:71 | the error's message when it is non-empty, else the fallback |
| Media.Bucket.Upload | src/app/api/upload/route.ts:10-73 | 401 and 400 leave the bucket unchanged, as do a failed bucket lookup, a put that throws and a put that returns nothing; a put that returns an object stores the file under its key; a reported key that differs gives 500; success returns the public URL and the key, which is then in the bucket |
| Media.NewerFirstTotalPreorder | src/app/api/media-list/route.ts:73 | the newest-first comparator is a total preorder |
| Media.ToFiles | src/app/api/media-list/route.ts:51-72 | one entry per object, in order, carrying its key, size, time, etag and public URL; it throws exactly when there is an object and the URL derivation throws |
| Media.ShownFiles | src/app/api/media-list/route.ts:49-73 | the files present exactly the objects other than the folder key and the empty ones, newest first; the pipeline throws exactly when such an object exists and the URL derivation throws |
| Media.ShownFilesAreShown | src/app/api/media-list/route.ts:50 | no file shown is the folder's own key or an empty object |
| Media.ListMedia | src/app/api/media-list/route.ts:20-90 | 401 without a session; 500 with the error's message when the bucket lookup, the listing or the URL derivation throws; an empty listing gives no files and no `truncated`; otherwise the shown files with `truncated`, and a cursor exactly when the listing is truncated and gave one; no file is the folder key or empty |
| Media.NewestFirst | src/app/api/media-list/route.ts:73 | listed files run from the latest upload time to the earliest, an absent time counting as 0 |
| Media.UploadShownIffNamed | src/app/api/media-list/route.ts:49-50 | an upload to a folder is listed by that folder exactly when its name is non-empty and the object is non-empty |
| Media.DirPrefix | src/services/R2Service.tsx:6 | `{dirName}/` for a non-empty name, else the empty prefix |
| Media.DirName | src/services/R2Service.tsx:21-22 | the full path without its first n characters and without its last character |
| Media.ListDirectories | src/services/R2Service.tsx:4-31 | a missing binding or a listing error propagates; otherwise one name per delimited prefix, in order |
| Media.DirNameRoundTrip | src/services/R2Service.tsx:20-23 | `{prefix}{name}/` gives back `name` |
| Media.SiteFolderName | src/services/R2Service.tsx:20-23 | listing `images` names each upload folder by its site id |

Behaviour of the code worth noting, followed here:

- In `POST /api/sites`, a seeding insert that reports failure without throwing still ends in 201; only a throw stops the seeding. A seeding insert that throws with a UNIQUE message is answered 409 ("slug exists") although the site row was created and stays.
- `getR2Bucket` throws when the binding is missing, so the routes' own `if (!R2)` branches cannot be reached. The lookup is modelled as a thrown message, which reaches each route's `catch`.
- The upload writes the object before it derives the URL. A URL derivation that throws therefore answers 500 after the object is stored.
- The redirect rule has `permanent: true`. The framework answers such a redirect with 308, not the 301 the source comment names. The model keeps the flag only.

## Left out

- Rendering: markup, CSS classes, icons beyond index/document, and the Japanese message texts. Error bodies of `/api/sites` are the `Message` constructors.
- Logging (`console.*`) has no effect on results and is not modelled.
- The store and the bucket themselves are not modelled, nor SQL execution. Their results are parameters, and connection errors are a thrown message.
- Payload fields of a type other than string are not modelled. A thrown value that is not an `Error` is not modelled either: every throw carries a message.
- `created_at`/`updated_at` defaults: the insert time is the parameter `now`. `ORDER BY created_at DESC` compares the stored text by code point (`LexLe`). The order among equal timestamps is not specified.
- Row ids follow the one-past-the-largest rule. Row deletion is not part of the core, so id reuse does not arise.
- `localeCompare` collation is the parameter `le`. The sort the runtime uses is insertion sort here. Only sortedness and the multiset are stated, so stability is not relied on.
- `date-fns` parsing and `formatInTimeZone` (Asia/Tokyo) are parameters. A `Date` input is its instant, or None when invalid.
- `new URL(endpoint).hostname` is the parameter `hostname`.
- `file.arrayBuffer()` failing is not modelled.
- Object metadata other than the content type is not modelled.
- JWT signing, expiry enforcement and session lookup are not modelled. `Auth.SessionMaxAge` records the lifetime, 86400 seconds.
- `withAuth`: the `callbackUrl` it adds to the login redirect is not modelled. Neither is any special handling of the sign-in page inside the library. The model applies the `authorized` callback, then the middleware function.
- The framework's routing details are not modelled: trailing slashes, URL decoding, the public directory and the order among other rules. Only these two rules are modelled, with redirects checked before rewrites.
- Listing pagination: the request sends no cursor or limit, so only the first page's `truncated` and `cursor` are modelled.
- Badges: the status is one of the three names by type. Text in the store outside those names is not modelled.
- Media.ShownFiles: states that the files and the kept objects are equal in number, that every file is the entry of some kept object, and that every kept key appears. It does not state that the files are the mapped objects as a multiset.
- PageOrder.OrderPagesPermutation: needs at most one `index` page. With two, the second is dropped, as in the source; `OrderPages` states the exact length for that case.
- SitesRoute.SlugInUse: the schema is not part of the repository's code. The model assumes the uniqueness of `Sites.slug` is a column constraint over every row, soft-deleted or not, and `SitesRoute.Consistent` carries that assumption. Under a partial unique index over live rows only, `SitesRoute.SiteStore.Post` would answer 201 rather than 409 for the slug of a soft-deleted site, and these two predicates would be too strong.
- Ordering.FindFirst: a lookup that ends in `first()` is assumed to return the first matching row in table order. SQLite does not fix the row order without `ORDER BY`. This matters for `LayoutService.GetLayoutByName`, because (`site_id`, `name`) is not unique, and likewise for the other `first()` lookups.
- Dates.Normalize: strings are sequences of code points. The source's `length === 19` and `charAt(10)` count UTF-16 code units, so the model differs on text with characters outside the Basic Multilingual Plane.
- The public page renderer, the CSS route, PUT/DELETE routes and soft-delete cascades are not part of this model.
