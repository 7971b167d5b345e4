/** Where uploaded media is kept and how it is found again: the object key
    built from the site id and the file name, the public URL of a key, the
    upload handler over the bucket, the media listing, and the directory
    names of a delimited listing. The bucket binding, `new URL(...).hostname`
    and the listing the bucket returns are parameters. */
module Media {
  import opened Common
  import opened Ordering

  /** `siteId ? images/{siteId}/ : common/`. */
  function PathPrefix(siteId: Option<string>): (r: string)
    ensures Truthy(siteId) ==> r == "images/" + siteId.value + "/"
    ensures !Truthy(siteId) ==> r == "common/"
    ensures EndsWith(r, "/")
  {
    if Truthy(siteId) then "images/" + siteId.value + "/" else "common/"
  }

  /** The object key: the prefix followed by the file name as given. */
  function ObjectKey(siteId: Option<string>, fileName: string): (r: string)
    ensures StartsWith(r, PathPrefix(siteId)) && r[|PathPrefix(siteId)|..] == fileName
  {
    PathPrefix(siteId) + fileName
  }

  /** Within one folder, two uploads get the same key exactly when they carry
      the same file name, so a second upload of a name replaces the first; and
      only the empty file name gives the folder's own key. */
  lemma ObjectKeySameName(siteId: Option<string>, a: string, b: string)
    ensures ObjectKey(siteId, a) == ObjectKey(siteId, b) <==> a == b
    ensures ObjectKey(siteId, a) == PathPrefix(siteId) <==> a == ""
  {
    var p := PathPrefix(siteId);
    if ObjectKey(siteId, a) == ObjectKey(siteId, b) {
      assert a == ObjectKey(siteId, a)[|p|..];
    }
    if ObjectKey(siteId, a) == p {
      assert |a| == 0;
    }
  }

  /** The three settings the public URL is derived from. */
  datatype UrlConfig = UrlConfig(publicBase: Option<string>, bucketName: Option<string>,
                                 endpoint: Option<string>)

  /** The base followed by the key, with a `/` added between them only when
      the base does not already end in one. */
  function JoinUrl(base: string, key: string): (r: string)
    ensures EndsWith(base, "/") ==> r == base + key
    ensures !EndsWith(base, "/") ==> r == base + "/" + key
  {
    (if EndsWith(base, "/") then base else base + "/") + key
  }

  /** Whether deriving a URL throws: only the bucket-and-endpoint rule parses
      the endpoint, and the parse may throw. */
  predicate UrlThrows(cfg: UrlConfig, hostname: string -> Outcome<string>) {
    !Truthy(cfg.publicBase) && Truthy(cfg.bucketName) && Truthy(cfg.endpoint)
    && hostname(cfg.endpoint.value).Thrown?
  }

  /** The public URL of a key: the public base when it is set; otherwise
      `https://{bucket}.{hostname of endpoint}/{key}` when both are set;
      otherwise the bare key. Parsing the endpoint may throw. */
  function PublicUrl(cfg: UrlConfig, hostname: string -> Outcome<string>, key: string): (r: Outcome<string>)
    ensures r.Thrown? <==> UrlThrows(cfg, hostname)
    ensures Truthy(cfg.publicBase) ==> r == Ok(JoinUrl(cfg.publicBase.value, key))
    ensures !Truthy(cfg.publicBase) && Truthy(cfg.bucketName) && Truthy(cfg.endpoint) && r.Ok? ==>
      r.value == "https://" + cfg.bucketName.value + "." + hostname(cfg.endpoint.value).value + "/" + key
    ensures !Truthy(cfg.publicBase) && !(Truthy(cfg.bucketName) && Truthy(cfg.endpoint)) ==> r == Ok(key)
  {
    if Truthy(cfg.publicBase) then Ok(JoinUrl(cfg.publicBase.value, key))
    else if Truthy(cfg.bucketName) && Truthy(cfg.endpoint) then
      match hostname(cfg.endpoint.value)
      case Thrown(m) => Thrown(m)
      case Ok(host) => Ok("https://" + cfg.bucketName.value + "." + host + "/" + key)
    else Ok(key)
  }

  /** Whichever rule applies, the URL ends with the key. */
  lemma PublicUrlEndsWithKey(cfg: UrlConfig, hostname: string -> Outcome<string>, key: string)
    ensures PublicUrl(cfg, hostname, key).Ok? ==> EndsWith(PublicUrl(cfg, hostname, key).value, key)
  {
    var r := PublicUrl(cfg, hostname, key);
    if r.Ok? {
      assert r.value[|r.value| - |key|..] == key;
    }
  }

  /** With a public base, the base is followed by exactly one `/` before the
      key when the base ends in at most one; the URL determines the key. */
  lemma PublicUrlBaseJoin(base: string, key: string, other: string)
    ensures StartsWith(JoinUrl(base, key), base)
    ensures |JoinUrl(base, key)| - |key| > 0 && JoinUrl(base, key)[|JoinUrl(base, key)| - |key| - 1] == '/'
    ensures JoinUrl(base, key) == JoinUrl(base, other) <==> key == other
  {
    var b := if EndsWith(base, "/") then base else base + "/";
    assert JoinUrl(base, key) == b + key;
    assert (b + key)[..|base|] == base;
    assert (b + key)[|b| - 1] == '/';
    if JoinUrl(base, key) == JoinUrl(base, other) {
      assert key == (b + key)[|b|..];
      assert other == (b + other)[|b|..];
    }
  }

  /** `error.message || <fallback>`. */
  function ErrorMessage(message: string, fallback: string): (r: string)
    ensures message != "" ==> r == message
    ensures message == "" ==> r == fallback
    ensures r == "" <==> message == "" && fallback == ""
  {
    if message != "" then message else fallback
  }

  // ---------------------------------------------------------------------
  // Upload

  datatype UploadedFile = UploadedFile(name: string, contentType: string, bytes: seq<bv8>)

  /** The multipart form: the `file` and `siteId` fields. */
  datatype UploadForm = UploadForm(file: Option<UploadedFile>, siteId: Option<string>)

  /** What the bucket's `put` does: throws, returns nothing (and writes
      nothing), or writes the object and returns it with the key it reports. */
  datatype PutOutcome = PutThrows(message: string) | NoObject | Written(reportedKey: string)

  datatype StoredObject = StoredObject(bytes: seq<bv8>, contentType: string)

  datatype UploadResponse =
    | Uploaded(url: string, key: string)
    | UploadFailed(code: nat, message: string)

  const UploadFallback := "Failed to upload file."
  const ConfirmFailed := "Failed to confirm file upload to R2."

  /** The media bucket: objects by key. */
  class Bucket {
    var objects: map<string, StoredObject>

    constructor ()
      ensures objects == map[]
    {
      objects := map[];
    }

    /** The upload handler. `signedIn` is whether a session with a user
        exists; `form` is the parsed form or the message of the error parsing
        it; `binding` is the message of the error the bucket lookup throws. */
    method Upload(signedIn: bool, form: Outcome<UploadForm>, binding: Option<string>,
                  put: PutOutcome, cfg: UrlConfig, hostname: string -> Outcome<string>)
      returns (resp: UploadResponse)
      modifies this
      ensures !signedIn ==> resp == UploadFailed(401, "Unauthorized") && objects == old(objects)
      ensures signedIn && form.Thrown? ==>
        resp == UploadFailed(500, ErrorMessage(form.message, UploadFallback)) && objects == old(objects)
      ensures signedIn && form.Ok? && form.value.file.None? ==>
        resp == UploadFailed(400, "File is required.") && objects == old(objects)
      ensures signedIn && form.Ok? && form.value.file.Some? ==>
        var key := ObjectKey(form.value.siteId, form.value.file.value.name);
        var file := form.value.file.value;
        && (binding.Some? ==>
              resp == UploadFailed(500, ErrorMessage(binding.value, UploadFallback)) && objects == old(objects))
        && (binding.None? && put.PutThrows? ==>
              resp == UploadFailed(500, ErrorMessage(put.message, UploadFallback)) && objects == old(objects))
        && (binding.None? && put.NoObject? ==>
              resp == UploadFailed(500, ConfirmFailed) && objects == old(objects))
        && (binding.None? && put.Written? ==>
              objects == old(objects)[key := StoredObject(file.bytes, file.contentType)])
        && (binding.None? && put.Written? && put.reportedKey != key ==>
              resp == UploadFailed(500, ConfirmFailed))
        && (binding.None? && put.Written? && put.reportedKey == key ==>
              resp == match PublicUrl(cfg, hostname, key)
                      case Ok(url) => Uploaded(url, key)
                      case Thrown(m) => UploadFailed(500, ErrorMessage(m, UploadFallback)))
      ensures resp.Uploaded? ==> resp.key in objects && EndsWith(resp.url, resp.key)
    {
      if !signedIn {
        return UploadFailed(401, "Unauthorized");
      }
      if form.Thrown? {
        return UploadFailed(500, ErrorMessage(form.message, UploadFallback));
      }
      var file := form.value.file;
      if file.None? {
        return UploadFailed(400, "File is required.");
      }
      var key := ObjectKey(form.value.siteId, file.value.name);
      if binding.Some? {
        return UploadFailed(500, ErrorMessage(binding.value, UploadFallback));
      }
      match put {
        case PutThrows(m) =>
          return UploadFailed(500, ErrorMessage(m, UploadFallback));
        case NoObject =>
          return UploadFailed(500, ConfirmFailed);
        case Written(reported) =>
          objects := objects[key := StoredObject(file.value.bytes, file.value.contentType)];
          if reported != key {
            return UploadFailed(500, ConfirmFailed);
          }
          match PublicUrl(cfg, hostname, key) {
            case Thrown(m) =>
              return UploadFailed(500, ErrorMessage(m, UploadFallback));
            case Ok(url) =>
              PublicUrlEndsWithKey(cfg, hostname, key);
              return Uploaded(url, key);
          }
      }
    }
  }

  // ---------------------------------------------------------------------
  // Media listing

  /** An object of a listing: key, size, upload time (milliseconds) and etag. */
  datatype ListedObject = ListedObject(key: string, size: int, uploaded: Option<int>, etag: string)

  /** What `list` returns: the objects (possibly absent), whether more
      remain, and the cursor to continue from. */
  datatype Listing = Listing(objects: Option<seq<ListedObject>>, truncated: bool, cursor: Option<string>)

  datatype MediaFile = MediaFile(key: string, url: string, lastModified: Option<int>, size: int, etag: string)

  /** The JSON body: the files with, when the listing was not empty, the
      `truncated` flag and possibly the cursor; or an error status. */
  datatype ListResponse =
    | Files(files: seq<MediaFile>, truncated: Option<bool>, cursor: Option<string>)
    | ListFailed(code: nat, message: string)

  const ListFallback := "Failed to list files."

  /** The files shown: neither the folder's own key nor an empty object. */
  function Shown(prefix: string): ListedObject -> bool {
    (o: ListedObject) => o.key != prefix && o.size > 0
  }

  /** `lastModified?.getTime() || 0`. */
  function Time(f: MediaFile): int {
    if f.lastModified.Some? then f.lastModified.value else 0
  }

  /** The comparator `(b.time || 0) - (a.time || 0)`, read as "`a` may come
      before `b`". */
  function NewerFirst(): (MediaFile, MediaFile) -> bool {
    (a: MediaFile, b: MediaFile) => Time(a) >= Time(b)
  }

  lemma NewerFirstTotalPreorder()
    ensures TotalPreorder(NewerFirst())
  {
  }

  /** The file entry of each object, in order; the first URL that throws
      stops the whole map. */
  function ToFiles(objs: seq<ListedObject>, cfg: UrlConfig, hostname: string -> Outcome<string>)
    : (r: Outcome<seq<MediaFile>>)
    ensures r.Thrown? <==> objs != [] && UrlThrows(cfg, hostname)
    ensures r.Ok? ==> |r.value| == |objs|
    ensures r.Ok? ==> forall i :: 0 <= i < |objs| ==> FileOf(objs[i], r.value[i], cfg, hostname)
  {
    if objs == [] then Ok([])
    else
      var o := objs[0];
      match PublicUrl(cfg, hostname, o.key)
      case Thrown(m) => Thrown(m)
      case Ok(url) =>
        match ToFiles(objs[1..], cfg, hostname)
        case Thrown(m) => Thrown(m)
        case Ok(rest) =>
          Ok([MediaFile(o.key, url, o.uploaded, o.size, o.etag)] + rest)
  }

  /** The filter, map and sort of a non-empty listing: the objects other
      than the folder's own key and the empty ones, each with its URL, newest
      first. */
  function ShownFiles(objects: seq<ListedObject>, prefix: string, cfg: UrlConfig,
                      hostname: string -> Outcome<string>): (r: Outcome<seq<MediaFile>>)
    ensures r.Thrown? <==> Filter(objects, Shown(prefix)) != [] && UrlThrows(cfg, hostname)
    ensures r.Ok? ==> Presents(Filter(objects, Shown(prefix)), r.value, cfg, hostname)
    ensures r.Ok? ==> SortedBy(r.value, NewerFirst())
  {
    var kept := Filter(objects, Shown(prefix));
    match ToFiles(kept, cfg, hostname)
    case Thrown(m) => Thrown(m)
    case Ok(files) =>
      var sorted := Sort(files, NewerFirst());
      SortPermutes(files, NewerFirst());
      EntriesReordered(kept, files, sorted, cfg, hostname);
      KeysReordered(kept, files, sorted, cfg, hostname);
      NewerFirstTotalPreorder();
      SortSorted(files, NewerFirst());
      Ok(sorted)
  }

  /** The media-list handler. `siteId` is the query parameter; `binding` is
      the message of the error the bucket lookup throws; `listing` is what
      `list` returns for the prefix, or the message of its error. */
  function ListMedia(signedIn: bool, siteId: Option<string>, binding: Option<string>,
                     listing: Outcome<Listing>, cfg: UrlConfig,
                     hostname: string -> Outcome<string>): (r: ListResponse)
    ensures !signedIn ==> r == ListFailed(401, "Unauthorized")
    ensures signedIn && binding.Some? ==> r == ListFailed(500, ErrorMessage(binding.value, ListFallback))
    ensures signedIn && binding.None? && listing.Thrown? ==>
      r == ListFailed(500, ErrorMessage(listing.message, ListFallback))
    ensures signedIn && binding.None? && listing.Ok?
            && (listing.value.objects.None? || listing.value.objects.value == []) ==>
      r == Files([], None, None)
    ensures r.Files? ==> forall i :: 0 <= i < |r.files| ==> r.files[i].key != PathPrefix(siteId) && r.files[i].size > 0
    ensures signedIn && binding.None? && listing.Ok? && listing.value.objects.Some?
            && listing.value.objects.value != [] ==>
      var shown := ShownFiles(listing.value.objects.value, PathPrefix(siteId), cfg, hostname);
      && (shown.Thrown? ==> r == ListFailed(500, ErrorMessage(shown.message, ListFallback)))
      && (shown.Ok? ==> r.Files? && r.files == shown.value && r.truncated == Some(listing.value.truncated))
    ensures r.Files? && r.truncated.Some? ==>
      && listing.Ok?
      && (r.cursor.Some? <==> listing.value.truncated && Truthy(listing.value.cursor))
      && (r.cursor.Some? ==> r.cursor == listing.value.cursor)
  {
    if !signedIn then ListFailed(401, "Unauthorized")
    else if binding.Some? then ListFailed(500, ErrorMessage(binding.value, ListFallback))
    else match listing
      case Thrown(m) => ListFailed(500, ErrorMessage(m, ListFallback))
      case Ok(l) =>
        if l.objects.None? || |l.objects.value| == 0 then Files([], None, None)
        else
          match ShownFiles(l.objects.value, PathPrefix(siteId), cfg, hostname)
          case Thrown(m) => ListFailed(500, ErrorMessage(m, ListFallback))
          case Ok(files) =>
            ShownFilesAreShown(l.objects.value, PathPrefix(siteId), cfg, hostname);
            Files(files, Some(l.truncated), if l.truncated && Truthy(l.cursor) then l.cursor else None)
  }

  /** `f` is the file entry of the listed object `o`. */
  predicate FileOf(o: ListedObject, f: MediaFile, cfg: UrlConfig, hostname: string -> Outcome<string>) {
    && f.key == o.key && f.size == o.size && f.lastModified == o.uploaded && f.etag == o.etag
    && PublicUrl(cfg, hostname, o.key) == Ok(f.url)
  }

  /** `files` presents the objects `kept`: one file per object, every file
      the entry of some kept object, every kept object among the files. */
  ghost predicate Presents(kept: seq<ListedObject>, files: seq<MediaFile>, cfg: UrlConfig,
                           hostname: string -> Outcome<string>) {
    && |files| == |kept|
    && (forall i :: 0 <= i < |files| ==> EntryOfSome(kept, files[i], cfg, hostname))
    && (forall j :: 0 <= j < |kept| ==> KeyAmong(files, kept[j].key))
  }

  /** `f` is the file entry of one of the objects `kept`. */
  ghost predicate EntryOfSome(kept: seq<ListedObject>, f: MediaFile, cfg: UrlConfig,
                              hostname: string -> Outcome<string>) {
    exists j :: 0 <= j < |kept| && FileOf(kept[j], f, cfg, hostname)
  }

  /** Some file carries `key`. */
  ghost predicate KeyAmong(files: seq<MediaFile>, key: string) {
    exists i :: 0 <= i < |files| && files[i].key == key
  }

  /** Files drawn from those of the kept objects are each the entry of some
      kept object. */
  lemma {:induction false} EntriesReordered(kept: seq<ListedObject>, files: seq<MediaFile>,
                                            sorted: seq<MediaFile>, cfg: UrlConfig,
                                            hostname: string -> Outcome<string>)
    requires |files| == |kept|
    requires forall j :: 0 <= j < |kept| ==> FileOf(kept[j], files[j], cfg, hostname)
    requires forall i :: 0 <= i < |sorted| ==> sorted[i] in files
    ensures forall i :: 0 <= i < |sorted| ==> EntryOfSome(kept, sorted[i], cfg, hostname)
  {
    forall i | 0 <= i < |sorted| ensures EntryOfSome(kept, sorted[i], cfg, hostname) {
      var j :| 0 <= j < |files| && files[j] == sorted[i];
      assert 0 <= j < |kept| && FileOf(kept[j], sorted[i], cfg, hostname);
    }
  }

  /** Files holding all those of the kept objects hold every kept key. */
  lemma {:induction false} KeysReordered(kept: seq<ListedObject>, files: seq<MediaFile>,
                                         sorted: seq<MediaFile>, cfg: UrlConfig,
                                         hostname: string -> Outcome<string>)
    requires |files| == |kept|
    requires forall j :: 0 <= j < |kept| ==> FileOf(kept[j], files[j], cfg, hostname)
    requires forall j :: 0 <= j < |files| ==> files[j] in sorted
    ensures forall j :: 0 <= j < |kept| ==> KeyAmong(sorted, kept[j].key)
  {
    forall j | 0 <= j < |kept| ensures KeyAmong(sorted, kept[j].key) {
      assert FileOf(kept[j], files[j], cfg, hostname);
      var i :| 0 <= i < |sorted| && sorted[i] == files[j];
      assert 0 <= i < |sorted| && sorted[i].key == kept[j].key;
    }
  }

  /** No file shown is the folder's own key or an empty object. */
  lemma {:induction false} ShownFilesAreShown(objects: seq<ListedObject>, prefix: string, cfg: UrlConfig,
                                              hostname: string -> Outcome<string>)
    requires ShownFiles(objects, prefix, cfg, hostname).Ok?
    ensures forall i :: 0 <= i < |ShownFiles(objects, prefix, cfg, hostname).value| ==>
      ShownFiles(objects, prefix, cfg, hostname).value[i].key != prefix
      && ShownFiles(objects, prefix, cfg, hostname).value[i].size > 0
  {
    var kept := Filter(objects, Shown(prefix));
    var files := ShownFiles(objects, prefix, cfg, hostname).value;
    forall i | 0 <= i < |files| ensures files[i].key != prefix && files[i].size > 0 {
      assert EntryOfSome(kept, files[i], cfg, hostname);
      var j :| 0 <= j < |kept| && FileOf(kept[j], files[i], cfg, hostname);
      assert Shown(prefix)(kept[j]);
    }
  }

  /** Sorted files run from the most recent upload to the oldest, an absent
      time counting as 0. */
  lemma NewestFirst(files: seq<MediaFile>, i: nat, j: nat)
    requires SortedBy(files, NewerFirst()) && i < j < |files|
    ensures Time(files[i]) >= Time(files[j])
  {
    assert NewerFirst()(files[i], files[j]);
  }

  /** An upload with a non-empty name is among what the listing of its
      folder may show, and one with an empty name never is. */
  lemma UploadShownIffNamed(siteId: Option<string>, name: string, size: int, uploaded: Option<int>, etag: string)
    ensures Shown(PathPrefix(siteId))(ListedObject(ObjectKey(siteId, name), size, uploaded, etag))
            <==> name != "" && size > 0
  {
    ObjectKeySameName(siteId, name, "");
  }

  // ---------------------------------------------------------------------
  // Directory listing

  /** `dirName ? dirName + '/' : ''`. */
  function DirPrefix(dirName: Option<string>): (r: string)
    ensures Truthy(dirName) ==> r == dirName.value + "/"
    ensures !Truthy(dirName) ==> r == ""
  {
    if Truthy(dirName) then dirName.value + "/" else ""
  }

  /** `fullPath.substring(n).slice(0, -1)`: everything after the first `n`
      characters (nothing when the path is shorter) but the last. */
  function DirName(fullPath: string, n: nat): (r: string)
    ensures n < |fullPath| ==> r == fullPath[n..|fullPath| - 1]
    ensures n >= |fullPath| ==> r == ""
  {
    var rest := if n <= |fullPath| then fullPath[n..] else "";
    if |rest| == 0 then "" else rest[..|rest| - 1]
  }

  /** `listDirectoriesInR2`: the directory names of the delimited prefixes,
      in the order listed. A missing binding or a listing error is passed on
      to the caller. */
  function ListDirectories(dirName: Option<string>, binding: Option<string>,
                           delimited: Outcome<seq<string>>): (r: Outcome<seq<string>>)
    ensures binding.Some? ==> r == Thrown(binding.value)
    ensures binding.None? && delimited.Thrown? ==> r == Thrown(delimited.message)
    ensures binding.None? && delimited.Ok? ==>
      && r.Ok? && |r.value| == |delimited.value|
      && forall i :: 0 <= i < |r.value| ==> r.value[i] == DirName(delimited.value[i], |DirPrefix(dirName)|)
  {
    if binding.Some? then Thrown(binding.value)
    else match delimited
      case Thrown(m) => Thrown(m)
      case Ok(paths) =>
        var n := |DirPrefix(dirName)|;
        Ok(seq(|paths|, i requires 0 <= i < |paths| => DirName(paths[i], n)))
  }

  /** The name of a directory comes back from its delimited prefix. */
  lemma DirNameRoundTrip(dirName: Option<string>, name: string)
    ensures DirName(DirPrefix(dirName) + name + "/", |DirPrefix(dirName)|) == name
  {
    var p := DirPrefix(dirName) + name + "/";
    assert p[|DirPrefix(dirName)|..|p| - 1] == name;
  }

  /** Listing the `images` directory names each site folder uploads go to by
      its site id. */
  lemma SiteFolderName(siteId: Option<string>)
    requires Truthy(siteId)
    ensures DirName(PathPrefix(siteId), |DirPrefix(Some("images"))|) == siteId.value
  {
    assert PathPrefix(siteId) == DirPrefix(Some("images")) + siteId.value + "/";
    DirNameRoundTrip(Some("images"), siteId.value);
  }
}
