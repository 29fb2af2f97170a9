/**
 * The photo service: upload (type check, per-user deduplication, path
 * assignment, original blob, best-effort thumbnails, row insert), deletion,
 * and the ownership-scoped reads.
 *
 * The database's `photos` table is a sequence of rows and the object store
 * is a map from path to blob. What the external libraries and services
 * decide (digests, image metadata, EXIF fields, clocks, generated ids and
 * whether each storage or database call succeeds) is passed in.
 */
module PhotoService {
  import opened Wrappers
  import opened Strings
  import opened Schema
  import opened ErrorHandler
  import opened PhotoPaths
  import opened Seqs

  // ---------------------------------------------------------------------------
  // Errors the service raises
  // ---------------------------------------------------------------------------

  const InvalidFileType := AppError(400, "INVALID_FILE_TYPE", "Only image files are allowed", None)
  const DuplicatePhoto := AppError(409, "DUPLICATE_PHOTO", "This photo has already been uploaded", None)
  const UploadError := AppError(500, "UPLOAD_ERROR", "An error occurred during photo upload", None)
  const PhotoNotFound := AppError(404, "PHOTO_NOT_FOUND", "Photo not found", None)

  /** The error for a refused original-blob write, quoting the store's own message. */
  function UploadFailed(storageMessage: string): AppError {
    AppError(500, "UPLOAD_FAILED", "Failed to upload photo: " + storageMessage, None)
  }

  // ---------------------------------------------------------------------------
  // Inputs of an upload
  // ---------------------------------------------------------------------------

  /** The uploaded file as the multipart parser hands it over. */
  datatype UploadedFile = UploadedFile(originalName: string, mimeType: string, size: int, buffer: seq<bv8>)

  /** The two digest functions: MD5 and SHA-256 of the bytes, in hex. */
  datatype Hashers = Hashers(md5: seq<bv8> -> string, sha256: seq<bv8> -> string)

  /** Dimensions read from the image; either may be missing. */
  datatype ImageMetadata = ImageMetadata(width: Option<int>, height: Option<int>)

  /** The EXIF fields upload uses; all None when parsing failed or found nothing. */
  datatype ExifData = ExifData(
    dateTimeOriginal: Option<Timestamp>,
    createDate: Option<Timestamp>,
    latitude: Option<string>,
    longitude: Option<string>,
    model: Option<string>)

  /** Everything about one upload that the outside world decides. */
  datatype UploadEnv = UploadEnv(
    selectFails: bool,                    // the duplicate-check query throws
    metadata: Option<ImageMetadata>,      // None: the image library cannot read the bytes
    exif: ExifData,
    timestamp: nat,                       // the clock when the path is assigned
    clock: Timestamp,                     // the clock when the row is built
    storageFails: bool,                   // the store refuses the original
    storageMessage: string,               // ... with this message
    thumbnailOk: ThumbSize -> bool,       // whether each rendition is produced and stored
    newId: string,                        // the uuid the database generates
    dbNow: Timestamp,                     // the database's clock at insert
    insertFails: bool)                    // the insert throws for a reason of its own

  /** A stored object: an original with its content type, or a JPEG rendition. */
  datatype Blob = Original(bytes: seq<bv8>, contentType: string) | Rendition(size: ThumbSize)

  // ---------------------------------------------------------------------------
  // The decisions of an upload
  // ---------------------------------------------------------------------------

  const ImageMimePrefix := "image/"

  predicate IsImageMime(mimeType: string) {
    StartsWith(mimeType, ImageMimePrefix)
  }

  /** The user already holds a row with this MD5 digest. */
  predicate DuplicateExists(rows: seq<Photo>, userId: string, md5: string) {
    exists i :: 0 <= i < |rows| && rows[i].userId == userId && rows[i].hashMd5 == Some(md5)
  }

  predicate IdTaken(rows: seq<Photo>, id: string) {
    exists i :: 0 <= i < |rows| && rows[i].id == id
  }

  /**
   * The failure, if any, that ends an upload before the original is written,
   * checked in the order the service checks: type, duplicate-check query,
   * duplicate, image metadata, then the store's answer to a non-overwriting
   * write (refused when the path is already taken).
   */
  function PreStorageFailure(rows: seq<Photo>, blobs: map<string, Blob>, file: UploadedFile, userId: string, h: Hashers, env: UploadEnv): Option<AppError> {
    if !IsImageMime(file.mimeType) then Some(InvalidFileType)
    else if env.selectFails then Some(UploadError)
    else if DuplicateExists(rows, userId, h.md5(file.buffer)) then Some(DuplicatePhoto)
    else if env.metadata.None? then Some(UploadError)
    else if env.storageFails || StoragePath(userId, env.timestamp, file.originalName) in blobs then
      Some(UploadFailed(env.storageMessage))
    else None
  }

  /** JavaScript's `n || null` on a number: 0 and undefined become null. */
  function NullIfZero(v: Option<int>): Option<int> {
    if v == Some(0) then None else v
  }

  /** JavaScript's `s || null` on a string: "" and undefined become null. */
  function NullIfEmpty(v: Option<string>): Option<string> {
    if v == Some("") then None else v
  }

  /** The capture date: the original date, else the creation date, else the current time. */
  function CaptureDate(exif: ExifData, clock: Timestamp): Timestamp {
    match (exif.dateTimeOriginal, exif.createDate)
    case (Some(d), _) => d
    case (None, Some(d)) => d
    case (None, None) => clock
  }

  /** The row an upload inserts, after the database fills in its defaults. */
  function NewRow(file: UploadedFile, userId: string, h: Hashers, env: UploadEnv): (row: Photo)
    requires env.metadata.Some?
    ensures row.id == env.newId && row.userId == userId
    ensures row.fileName == file.originalName
    ensures row.filePath == StoragePath(userId, env.timestamp, file.originalName)
    ensures row.fileSize == file.size && row.mimeType == file.mimeType
    ensures row.hashMd5 == Some(h.md5(file.buffer)) && row.hashSha256 == Some(h.sha256(file.buffer))
    ensures row.width.None? <==> env.metadata.value.width in {None, Some(0)}
    ensures env.metadata.value.width !in {None, Some(0)} ==> row.width == env.metadata.value.width
    ensures row.height.None? <==> env.metadata.value.height in {None, Some(0)}
    ensures env.metadata.value.height !in {None, Some(0)} ==> row.height == env.metadata.value.height
    ensures env.exif.dateTimeOriginal.Some? ==> row.createdDate == env.exif.dateTimeOriginal
    ensures env.exif.dateTimeOriginal.None? && env.exif.createDate.Some? ==> row.createdDate == env.exif.createDate
    ensures env.exif.dateTimeOriginal.None? && env.exif.createDate.None? ==> row.createdDate == Some(env.clock)
    ensures row.locationLatitude.None? <==> env.exif.latitude in {None, Some("")}
    ensures env.exif.latitude !in {None, Some("")} ==> row.locationLatitude == env.exif.latitude
    ensures row.locationLongitude.None? <==> env.exif.longitude in {None, Some("")}
    ensures env.exif.longitude !in {None, Some("")} ==> row.locationLongitude == env.exif.longitude
    ensures row.cameraModel.None? <==> env.exif.model in {None, Some("")}
    ensures env.exif.model !in {None, Some("")} ==> row.cameraModel == env.exif.model
    ensures row.uploadStatus == Uploaded && !row.hasDuplicates
    ensures row.hashPerceptual.None? && row.qualityScore.None? && row.durationSeconds.None?
    ensures row.uploadedAt == env.dbNow && row.createdAt == env.dbNow && row.updatedAt == env.dbNow
    ensures row.processedAt.None?
  {
    var meta := env.metadata.value;
    var ins := NewPhoto(
      None, userId, file.originalName, StoragePath(userId, env.timestamp, file.originalName),
      file.size, file.mimeType,
      Some(h.md5(file.buffer)), Some(h.sha256(file.buffer)), None,
      NullIfZero(meta.width), NullIfZero(meta.height), None,
      Some(CaptureDate(env.exif, env.clock)),
      NullIfEmpty(env.exif.latitude), NullIfEmpty(env.exif.longitude), NullIfEmpty(env.exif.model),
      Some(Uploaded), None, None,
      None, None, None, None);
    ApplyPhotoDefaults(ins, env.newId, env.dbNow)
  }

  /**
   * The database refuses the insert: an error of its own, a primary key
   * already in use, an owner missing from the users table, or a value too
   * long for its column.
   */
  predicate InsertRejected(rows: seq<Photo>, users: set<string>, row: Photo, env: UploadEnv) {
    env.insertFails || IdTaken(rows, row.id) || row.userId !in users || !ColumnsFit(row)
  }

  /** Appending a row whose digest its owner does not hold yet keeps every user free of duplicates. */
  lemma InsertKeepsNoDuplicates(rows: seq<Photo>, row: Photo)
    requires NoSameUserDuplicates(rows)
    requires row.hashMd5.Some? && !DuplicateExists(rows, row.userId, row.hashMd5.value)
    ensures NoSameUserDuplicates(rows + [row])
  {
    var all := rows + [row];
    forall i, j | 0 <= i < j < |all| && all[i].userId == all[j].userId && all[i].hashMd5.Some?
      ensures all[i].hashMd5 != all[j].hashMd5
    {
      if j == |rows| {
        assert all[i] == rows[i];
      }
    }
  }

  /** Once a user's upload is stored, the same bytes from the same user are refused as a duplicate. */
  lemma SameContentTwiceIsDuplicate(
    rows: seq<Photo>, blobs: map<string, Blob>, first: UploadedFile, second: UploadedFile,
    userId: string, h: Hashers, env1: UploadEnv, env2: UploadEnv)
    requires env1.metadata.Some?
    requires second.buffer == first.buffer && IsImageMime(second.mimeType) && !env2.selectFails
    ensures PreStorageFailure(rows + [NewRow(first, userId, h, env1)], blobs, second, userId, h, env2) == Some(DuplicatePhoto)
  {
    var all := rows + [NewRow(first, userId, h, env1)];
    assert all[|rows|].userId == userId && all[|rows|].hashMd5 == Some(h.md5(second.buffer));
  }

  /** Deduplication is per user: one user's upload never makes another user's identical upload a duplicate. */
  lemma DuplicatesArePerUser(rows: seq<Photo>, file: UploadedFile, owner: string, other: string, h: Hashers, env: UploadEnv)
    requires env.metadata.Some? && owner != other
    requires !DuplicateExists(rows, other, h.md5(file.buffer))
    ensures !DuplicateExists(rows + [NewRow(file, owner, h, env)], other, h.md5(file.buffer))
  {
    var all := rows + [NewRow(file, owner, h, env)];
    forall i | 0 <= i < |all| && all[i].userId == other
      ensures all[i].hashMd5 != Some(h.md5(file.buffer))
    {
      assert i < |rows| && all[i] == rows[i];
    }
  }

  // ---------------------------------------------------------------------------
  // Thumbnails
  // ---------------------------------------------------------------------------

  /**
   * The store after attempting `sizes` in order for the original at `path`:
   * each rendition that succeeds is written (overwriting) at its thumbnail
   * path; one that fails writes nothing and does not stop the rest.
   */
  function WriteThumbs(blobs: map<string, Blob>, path: string, sizes: seq<ThumbSize>, ok: ThumbSize -> bool): map<string, Blob>
    decreases |sizes|
  {
    if sizes == [] then blobs
    else
      var before := WriteThumbs(blobs, path, sizes[..|sizes| - 1], ok);
      var size := sizes[|sizes| - 1];
      if ok(size) then before[ThumbnailPath(path, size) := Rendition(size)] else before
  }

  /** Thumbnail generation adds exactly the paths of the renditions that succeeded. */
  lemma {:induction false} WriteThumbsKeys(blobs: map<string, Blob>, path: string, sizes: seq<ThumbSize>, ok: ThumbSize -> bool)
    ensures WriteThumbs(blobs, path, sizes, ok).Keys ==
      blobs.Keys + (set s | s in sizes && ok(s) :: ThumbnailPath(path, s))
    decreases |sizes|
  {
    if sizes != [] {
      var front := sizes[..|sizes| - 1];
      WriteThumbsKeys(blobs, path, front, ok);
      assert sizes == front + [sizes[|sizes| - 1]];
    }
  }

  /** A stored object that no successful rendition targets is left as it was. */
  lemma {:induction false} WriteThumbsKeepsOthers(blobs: map<string, Blob>, path: string, sizes: seq<ThumbSize>, ok: ThumbSize -> bool, key: string)
    requires key in blobs
    requires forall s :: s in sizes && ok(s) ==> ThumbnailPath(path, s) != key
    ensures key in WriteThumbs(blobs, path, sizes, ok) && WriteThumbs(blobs, path, sizes, ok)[key] == blobs[key]
    decreases |sizes|
  {
    if sizes != [] {
      var front := sizes[..|sizes| - 1];
      forall s | s in front && ok(s) ensures ThumbnailPath(path, s) != key {
        assert s in sizes;
      }
      WriteThumbsKeepsOthers(blobs, path, front, ok, key);
    }
  }

  /**
   * For an original with an extension, every size that succeeded is stored as
   * its own rendition, whichever other sizes failed.
   */
  lemma {:induction false} WriteThumbsStoresRendition(blobs: map<string, Blob>, path: string, sizes: seq<ThumbSize>, ok: ThumbSize -> bool, size: ThumbSize)
    requires HasExtension(path) && size in sizes && ok(size)
    ensures ThumbnailPath(path, size) in WriteThumbs(blobs, path, sizes, ok)
    ensures WriteThumbs(blobs, path, sizes, ok)[ThumbnailPath(path, size)] == Rendition(size)
    decreases |sizes|
  {
    var front, last := sizes[..|sizes| - 1], sizes[|sizes| - 1];
    assert sizes == front + [last];
    if last != size {
      assert size in front;
      WriteThumbsStoresRendition(blobs, path, front, ok, size);
      if ok(last) {
        ThumbnailPathsDistinct(path, last, size);
      }
    }
  }

  /**
   * An original whose path has no extension is overwritten by its own
   * renditions: every rendition targets the original's path, and the last
   * size that succeeds (in the order thumb, preview, web) is what remains.
   */
  lemma ExtensionlessOriginalIsOverwritten(blobs: map<string, Blob>, path: string, ok: ThumbSize -> bool)
    requires !HasExtension(path) && path in blobs
    ensures var after := WriteThumbs(blobs, path, ThumbnailSizes, ok);
      path in after &&
      after[path] == (if ok(Web) then Rendition(Web)
                      else if ok(Preview) then Rendition(Preview)
                      else if ok(Thumb) then Rendition(Thumb)
                      else blobs[path])
  {
    ThumbnailPathsDistinct(path, Thumb, Thumb);
    ThumbnailPathsDistinct(path, Preview, Preview);
    ThumbnailPathsDistinct(path, Web, Web);
    assert ThumbnailSizes[..2] == [Thumb, Preview];
    assert [Thumb, Preview][..1] == [Thumb];
    assert [Thumb][..0] == [];
  }

  // ---------------------------------------------------------------------------
  // Reads
  // ---------------------------------------------------------------------------

  /** The first row with this id owned by this user (the query asks for at most one). */
  function FindOwned(rows: seq<Photo>, photoId: string, userId: string): (r: Option<Photo>)
    ensures r.None? <==> forall i :: 0 <= i < |rows| && rows[i].id == photoId ==> rows[i].userId != userId
    ensures r.Some? ==> r.value in rows && r.value.id == photoId && r.value.userId == userId
  {
    if rows == [] then None
    else if rows[0].id == photoId && rows[0].userId == userId then Some(rows[0])
    else
      var rest := FindOwned(rows[1..], photoId, userId);
      assert forall i :: 1 <= i < |rows| ==> rows[i] == rows[1..][i - 1];
      rest
  }

  /**
   * The caller's photo with this id. A missing id and another user's photo
   * give the same error, so a caller cannot tell them apart.
   */
  function GetPhotoById(rows: seq<Photo>, photoId: string, userId: string): (r: Result<Photo, AppError>)
    ensures r.Ok? ==> r.value in rows && r.value.id == photoId && r.value.userId == userId
    ensures r.Err? ==> r.error == PhotoNotFound
    ensures r.Err? <==> forall i :: 0 <= i < |rows| && rows[i].id == photoId ==> rows[i].userId != userId
  {
    match FindOwned(rows, photoId, userId)
    case Some(p) => Ok(p)
    case None => Err(PhotoNotFound)
  }

  /** With unique ids, a lookup finds exactly the caller's row with that id. */
  lemma GetPhotoByIdFindsTheRow(rows: seq<Photo>, i: nat, userId: string)
    requires UniqueIds(rows) && i < |rows| && rows[i].userId == userId
    ensures GetPhotoById(rows, rows[i].id, userId) == Ok(rows[i])
  {
    var r := GetPhotoById(rows, rows[i].id, userId);
    var j :| 0 <= j < |rows| && rows[j] == r.value;
    assert j == i;
  }

  /** A row just inserted with a fresh id is what its owner's lookup finds, and it is in the owner's listing. */
  lemma InsertedPhotoIsVisible(rows: seq<Photo>, row: Photo)
    requires !IdTaken(rows, row.id)
    ensures GetPhotoById(rows + [row], row.id, row.userId) == Ok(row)
    ensures row in OwnedRows(rows + [row], row.userId)
  {
    var all := rows + [row];
    assert all[|rows|] == row;
    forall i | 0 <= i < |rows| ensures all[i].id != row.id {
      assert all[i] == rows[i];
    }
    var found := GetPhotoById(all, row.id, row.userId);
    var j :| 0 <= j < |all| && all[j] == found.value;
  }

  /** The URL of a rendition of the caller's photo; whether that rendition exists is not checked. */
  function GetThumbnailUrl(rows: seq<Photo>, photoId: string, userId: string, size: Option<ThumbSize>, publicUrl: string -> string): (r: Result<string, AppError>)
    ensures r.Err? <==> GetPhotoById(rows, photoId, userId).Err?
    ensures r.Err? ==> r.error == PhotoNotFound
    ensures r.Ok? ==>
      exists p :: p in rows && p.id == photoId && p.userId == userId &&
        r.value == publicUrl(ThumbnailPath(p.filePath, size.GetOr(Thumb)))
  {
    match GetPhotoById(rows, photoId, userId)
    case Err(e) => Err(e)
    case Ok(photo) => Ok(publicUrl(ThumbnailPath(photo.filePath, size.GetOr(Thumb))))
  }

  datatype SortKey = UploadedAt | CreatedDate | FileName
  datatype SortOrder = Asc | Desc

  /** Absent fields (and a page or limit of 0) take the defaults: page 1, 20 per page, newest upload first. */
  datatype ListQuery = ListQuery(page: Option<int>, limit: Option<int>, sortBy: Option<SortKey>, sortOrder: Option<SortOrder>) {
    function Page(): int { if page.None? || page == Some(0) then 1 else page.value }
    function Limit(): int { if limit.None? || limit == Some(0) then 20 else limit.value }
    function Key(): SortKey { sortBy.GetOr(UploadedAt) }
    function Order(): SortOrder { sortOrder.GetOr(Desc) }
  }

  datatype Pagination = Pagination(page: int, limit: int, total: nat, hasMore: bool)

  datatype PhotoPage = PhotoPage(photos: seq<Photo>, pagination: Pagination)

  function Offset(page: int, limit: int): int {
    (page - 1) * limit
  }

  /** Code-point order on strings: a prefix comes first. */
  predicate StringLe(a: string, b: string) {
    a == [] || (b != [] && (a[0] < b[0] || (a[0] == b[0] && StringLe(a[1..], b[1..]))))
  }

  /**
   * `a` may come before `b` when sorting ascending on `key`. A missing capture
   * date sorts after every present one, as the database places nulls.
   */
  predicate KeyLe(a: Photo, b: Photo, key: SortKey) {
    match key
    case UploadedAt => a.uploadedAt <= b.uploadedAt
    case CreatedDate => b.createdDate.None? || (a.createdDate.Some? && a.createdDate.value <= b.createdDate.value)
    case FileName => StringLe(a.fileName, b.fileName)
  }

  predicate InOrder(a: Photo, b: Photo, key: SortKey, order: SortOrder) {
    if order == Asc then KeyLe(a, b, key) else KeyLe(b, a, key)
  }

  predicate SortedBy(s: seq<Photo>, key: SortKey, order: SortOrder) {
    forall i, j :: 0 <= i < j < |s| ==> InOrder(s[i], s[j], key, order)
  }

  /** The selector of one user's rows. */
  function OwnedBy(userId: string): Photo -> bool {
    (p: Photo) => p.userId == userId
  }

  /** The rows of one user, in table order. */
  function OwnedRows(rows: seq<Photo>, userId: string): (r: seq<Photo>)
    ensures |r| <= |rows|
    ensures forall i :: 0 <= i < |r| ==> r[i].userId == userId && r[i] in rows
    ensures forall i :: 0 <= i < |rows| && rows[i].userId == userId ==> rows[i] in r
    ensures forall p :: multiset(r)[p] == if p.userId == userId then multiset(rows)[p] else 0
  {
    Filter(rows, OwnedBy(userId))
  }

  /**
   * `ordered` is a result the database may give for the caller's rows sorted
   * on `key`: all of them, each once, in order. Rows with equal keys may come
   * in any order.
   */
  predicate IsOrderedResult(ordered: seq<Photo>, rows: seq<Photo>, userId: string, key: SortKey, order: SortOrder) {
    multiset(ordered) == multiset(OwnedRows(rows, userId)) && SortedBy(ordered, key, order)
  }

  /** A sorted result holds as many rows as the caller owns, each of them one of the caller's rows. */
  lemma OrderedResultRows(ordered: seq<Photo>, rows: seq<Photo>, userId: string, key: SortKey, order: SortOrder)
    requires IsOrderedResult(ordered, rows, userId, key, order)
    ensures |ordered| == |OwnedRows(rows, userId)|
    ensures forall i :: 0 <= i < |ordered| ==> ordered[i].userId == userId && ordered[i] in rows
  {
    var owned := OwnedRows(rows, userId);
    assert |ordered| == |multiset(ordered)| == |multiset(owned)| == |owned|;
    forall i | 0 <= i < |ordered| ensures ordered[i].userId == userId && ordered[i] in rows {
      assert ordered[i] in multiset(ordered);
      assert ordered[i] in multiset(owned);
      var k :| 0 <= k < |owned| && owned[k] == ordered[i];
    }
  }

  /** What OFFSET and LIMIT select: `limit` elements of `s` from position `offset` on, fewer near the end. */
  function Window(s: seq<Photo>, offset: nat, limit: nat): (w: seq<Photo>)
    ensures |w| == (if offset + limit <= |s| then limit else if offset <= |s| then |s| - offset else 0)
    ensures forall i :: 0 <= i < |w| ==> w[i] == s[offset + i]
  {
    var start := if offset < |s| then offset else |s|;
    var end := if offset + limit < |s| then offset + limit else |s|;
    s[start..end]
  }

  /** A window of a sorted sequence is sorted. */
  lemma WindowKeepsOrder(s: seq<Photo>, offset: nat, limit: nat, key: SortKey, order: SortOrder)
    requires SortedBy(s, key, order)
    ensures SortedBy(Window(s, offset, limit), key, order)
  {
    var w := Window(s, offset, limit);
    forall i, j | 0 <= i < j < |w| ensures InOrder(w[i], w[j], key, order) {
      assert w[i] == s[offset + i] && w[j] == s[offset + j];
    }
  }

  /** Two windows of the same width, one after the other, make up the window of twice that width. */
  lemma WindowsAdjoin(s: seq<Photo>, offset: nat, limit: nat)
    ensures Window(s, offset, limit) + Window(s, offset + limit, limit) == Window(s, offset, 2 * limit)
  {
    var a, b, c := Window(s, offset, limit), Window(s, offset + limit, limit), Window(s, offset, 2 * limit);
    assert |a + b| == |c|;
    forall i | 0 <= i < |c| ensures (a + b)[i] == c[i] {
      if i >= |a| {
        assert |a| == limit;
        assert (a + b)[i] == b[i - limit];
      }
    }
  }

  /**
   * One page of the caller's photos. `ordered` is the database's sorted
   * result of the caller's rows before LIMIT and OFFSET. The database refuses
   * a negative OFFSET, and failing that a negative LIMIT, as Postgres checks
   * them in that order.
   */
  function ListPhotos(rows: seq<Photo>, userId: string, q: ListQuery, ordered: seq<Photo>): (r: Result<PhotoPage, Error>)
    requires IsOrderedResult(ordered, rows, userId, q.Key(), q.Order())
    ensures r.Err? <==> q.Limit() < 0 || Offset(q.Page(), q.Limit()) < 0
    ensures Offset(q.Page(), q.Limit()) < 0 ==> r == Err(Other("OFFSET must not be negative"))
    ensures Offset(q.Page(), q.Limit()) >= 0 && q.Limit() < 0 ==> r == Err(Other("LIMIT must not be negative"))
    ensures r.Ok? ==>
      var photos, offset, total := r.value.photos, Offset(q.Page(), q.Limit()), |OwnedRows(rows, userId)|;
      && r.value.pagination.page == q.Page() && r.value.pagination.limit == q.Limit()
      && r.value.pagination.total == total
      && photos == Window(ordered, offset, q.Limit())
      && (forall i :: 0 <= i < |photos| ==> photos[i].userId == userId && photos[i] in rows)
      && SortedBy(photos, q.Key(), q.Order())
      && r.value.pagination.hasMore == (offset + |photos| < total)
  {
    var page, limit := q.Page(), q.Limit();
    var offset := Offset(page, limit);
    if offset < 0 then Err(Other("OFFSET must not be negative"))
    else if limit < 0 then Err(Other("LIMIT must not be negative"))
    else
      OrderedResultRows(ordered, rows, userId, q.Key(), q.Order());
      WindowKeepsOrder(ordered, offset, limit, q.Key(), q.Order());
      var photos := Window(ordered, offset, limit);
      var total := |OwnedRows(rows, userId)|;
      Ok(PhotoPage(photos, Pagination(page, limit, total, offset + |photos| < total)))
  }

  lemma NegativeTimesPositive(a: int, b: int)
    requires a < 0 && b > 0
    ensures a * b < 0
  {
  }

  lemma ProductNonNegative(a: nat, b: nat)
    ensures a * b >= 0
  {
  }

  lemma NextProduct(a: int, b: int)
    ensures (a + 1) * b == a * b + b
  {
  }

  /** There are more photos exactly when the pages up to this one do not reach the total. */
  lemma HasMoreIffPagesShort(rows: seq<Photo>, userId: string, q: ListQuery, ordered: seq<Photo>)
    requires IsOrderedResult(ordered, rows, userId, q.Key(), q.Order())
    requires ListPhotos(rows, userId, q, ordered).Ok?
    ensures q.Page() >= 1 && q.Limit() >= 1
    ensures ListPhotos(rows, userId, q, ordered).value.pagination.hasMore
        <==> q.Page() * q.Limit() < |OwnedRows(rows, userId)|
  {
    var page, limit := q.Page(), q.Limit();
    OrderedResultRows(ordered, rows, userId, q.Key(), q.Order());
    if page < 1 {
      NegativeTimesPositive(page - 1, limit);
    }
    NextProduct(page - 1, limit);
  }

  /**
   * Read with the same order, page p and page p + 1 are adjacent windows of
   * it, together the window of two pages from page p's offset. Nothing ties
   * the order of two separate queries among equal keys.
   */
  lemma ConsecutivePagesAdjoin(rows: seq<Photo>, userId: string, q: ListQuery, ordered: seq<Photo>)
    requires IsOrderedResult(ordered, rows, userId, q.Key(), q.Order())
    requires q.page.Some? && q.page.value >= 1 && q.limit.Some? && q.limit.value >= 1
    ensures var next := q.(page := Some(q.page.value + 1));
      ListPhotos(rows, userId, q, ordered).Ok? && ListPhotos(rows, userId, next, ordered).Ok? &&
      ListPhotos(rows, userId, q, ordered).value.photos + ListPhotos(rows, userId, next, ordered).value.photos
        == Window(ordered, (q.page.value - 1) * q.limit.value, 2 * q.limit.value)
  {
    var next := q.(page := Some(q.page.value + 1));
    var p, l := q.page.value, q.limit.value;
    ProductNonNegative(p - 1, l);
    NextProduct(p - 1, l);
    var offset: nat := (p - 1) * l;
    var r1, r2 := ListPhotos(rows, userId, q, ordered), ListPhotos(rows, userId, next, ordered);
    assert r1.Ok? && r1.value.photos == Window(ordered, offset, l);
    assert r2.Ok? && r2.value.photos == Window(ordered, offset + l, l);
    WindowsAdjoin(ordered, offset, l);
  }

  /** Twenty-five photos in pages of ten: page 2 holds the 11th to 20th with more to come, page 3 the last five. */
  lemma TwentyFiveInPagesOfTen(rows: seq<Photo>, userId: string, key: SortKey, order: SortOrder, ordered: seq<Photo>)
    requires IsOrderedResult(ordered, rows, userId, key, order) && |OwnedRows(rows, userId)| == 25
    ensures |ordered| == 25
    ensures var r2 := ListPhotos(rows, userId, ListQuery(Some(2), Some(10), Some(key), Some(order)), ordered);
      r2.Ok? && r2.value.photos == ordered[10..20] && r2.value.pagination.hasMore
    ensures var r3 := ListPhotos(rows, userId, ListQuery(Some(3), Some(10), Some(key), Some(order)), ordered);
      r3.Ok? && r3.value.photos == ordered[20..25] && !r3.value.pagination.hasMore
  {
    OrderedResultRows(ordered, rows, userId, key, order);
    var q2, q3 := ListQuery(Some(2), Some(10), Some(key), Some(order)), ListQuery(Some(3), Some(10), Some(key), Some(order));
    assert Offset(q2.Page(), q2.Limit()) == 10 && Offset(q3.Page(), q3.Limit()) == 20;
    assert Window(ordered, 10, 10) == ordered[10..20];
    assert Window(ordered, 20, 10) == ordered[20..25];
  }

  // ---------------------------------------------------------------------------
  // Deletion
  // ---------------------------------------------------------------------------

  /** The three rendition paths of an original, derived as generation derives them. */
  function RenditionPaths(path: string): set<string> {
    {ThumbnailPath(path, Thumb), ThumbnailPath(path, Preview), ThumbnailPath(path, Web)}
  }

  /** Every object thumbnail generation can write is the original's or among those deletion removes. */
  lemma GeneratedRenditionsAreDeleted(blobs: map<string, Blob>, path: string, ok: ThumbSize -> bool)
    ensures WriteThumbs(blobs, path, ThumbnailSizes, ok).Keys <= blobs.Keys + RenditionPaths(path)
  {
    WriteThumbsKeys(blobs, path, ThumbnailSizes, ok);
    forall s | s in ThumbnailSizes ensures ThumbnailPath(path, s) in RenditionPaths(path) {
    }
  }

  predicate Matches(p: Photo, photoId: string, userId: string) {
    p.id == photoId && p.userId == userId
  }

  /** The selector of the rows a delete keeps. */
  function Survives(photoId: string, userId: string): Photo -> bool {
    (p: Photo) => !Matches(p, photoId, userId)
  }

  /** The table after deleting the rows with this id owned by this user. */
  function RemoveOwned(rows: seq<Photo>, photoId: string, userId: string): (r: seq<Photo>)
    ensures |r| <= |rows|
    ensures forall i :: 0 <= i < |r| ==> r[i] in rows && !Matches(r[i], photoId, userId)
    ensures forall i :: 0 <= i < |rows| && !Matches(rows[i], photoId, userId) ==> rows[i] in r
  {
    Filter(rows, Survives(photoId, userId))
  }

  /** Deleting rows keeps the table's constraints. */
  lemma RemoveOwnedKeepsConstraints(rows: seq<Photo>, users: set<string>, photoId: string, userId: string)
    requires PhotosTableConstraints(rows, users)
    ensures PhotosTableConstraints(RemoveOwned(rows, photoId, userId), users)
  {
    var distinct := (p: Photo, q: Photo) => p.id != q.id;
    FilterKeepsPairwise(rows, Survives(photoId, userId), distinct);
    var r := RemoveOwned(rows, photoId, userId);
    forall i | 0 <= i < |r| ensures r[i].userId in users && ColumnsFit(r[i]) {
      var k :| 0 <= k < |rows| && rows[k] == r[i];
    }
  }

  /** Deleting rows keeps every user free of duplicates. */
  lemma RemoveOwnedKeepsNoDuplicates(rows: seq<Photo>, photoId: string, userId: string)
    requires NoSameUserDuplicates(rows)
    ensures NoSameUserDuplicates(RemoveOwned(rows, photoId, userId))
  {
    var differ := (p: Photo, q: Photo) => p.userId == q.userId && p.hashMd5.Some? ==> p.hashMd5 != q.hashMd5;
    FilterKeepsPairwise(rows, Survives(photoId, userId), differ);
  }

  /** After the row is deleted, looking it up fails and the owner's listing no longer holds it. */
  lemma DeletedPhotoIsGone(rows: seq<Photo>, photoId: string, userId: string)
    ensures GetPhotoById(RemoveOwned(rows, photoId, userId), photoId, userId).Err?
    ensures forall p :: p in OwnedRows(RemoveOwned(rows, photoId, userId), userId) ==> p.id != photoId
  {
  }

  // ---------------------------------------------------------------------------
  // The service
  // ---------------------------------------------------------------------------

  class PhotoService {
    /** The `photos` table. */
    var rows: seq<Photo>
    /** The object store's bucket: path to stored object. */
    var blobs: map<string, Blob>
    /** The `mizzap_users` table; the service only reads it (the insert's foreign key). */
    var users: map<string, MizzapUser>

    ghost predicate Valid()
      reads this
    {
      PhotosTableConstraints(rows, users.Keys) && UsersTableConstraints(users)
    }

    constructor (users: map<string, MizzapUser>)
      requires UsersTableConstraints(users)
      ensures Valid() && rows == [] && blobs == map[] && this.users == users
    {
      rows := [];
      blobs := map[];
      this.users := users;
    }

    /** Storage accounting is not implemented: the source only logs, so no table changes. */
    method UpdateUserStorage(userId: string, additionalBytes: int)
      ensures users == old(users) && rows == old(rows) && blobs == old(blobs)
    {
    }

    /** Attempts the renditions in order, writing each that succeeds; failures are swallowed. */
    method GenerateThumbnails(filePath: string, ok: ThumbSize -> bool)
      modifies this`blobs
      ensures blobs == WriteThumbs(old(blobs), filePath, ThumbnailSizes, ok)
    {
      for k := 0 to |ThumbnailSizes|
        invariant blobs == WriteThumbs(old(blobs), filePath, ThumbnailSizes[..k], ok)
      {
        var size := ThumbnailSizes[k];
        assert ThumbnailSizes[..k + 1][..k] == ThumbnailSizes[..k];
        if ok(size) {
          blobs := blobs[ThumbnailPath(filePath, size) := Rendition(size)];
        }
      }
      assert ThumbnailSizes[..|ThumbnailSizes|] == ThumbnailSizes;
    }

    /**
     * Uploads `file` for `userId`. A failure before the original is written
     * changes nothing; once it is written it stays, with whatever renditions
     * were produced, even if the insert then fails.
     */
    method UploadPhoto(file: UploadedFile, userId: string, h: Hashers, env: UploadEnv) returns (r: Result<Photo, AppError>)
      requires Valid()
      modifies this`rows, this`blobs
      ensures Valid() && users == old(users)
      ensures old(NoSameUserDuplicates(rows)) ==> NoSameUserDuplicates(rows)
      ensures var failure := PreStorageFailure(old(rows), old(blobs), file, userId, h, env);
        failure.Some? ==> r == Err(failure.value) && rows == old(rows) && blobs == old(blobs)
      ensures var path := StoragePath(userId, env.timestamp, file.originalName);
        PreStorageFailure(old(rows), old(blobs), file, userId, h, env).None? ==>
          blobs == WriteThumbs(old(blobs)[path := Original(file.buffer, file.mimeType)], path, ThumbnailSizes, env.thumbnailOk)
      ensures PreStorageFailure(old(rows), old(blobs), file, userId, h, env).None? ==>
        var row := NewRow(file, userId, h, env);
        if InsertRejected(old(rows), users.Keys, row, env) then r == Err(UploadError) && rows == old(rows)
        else r == Ok(row) && rows == old(rows) + [row]
    {
      if !IsImageMime(file.mimeType) {
        return Err(InvalidFileType);
      }
      var md5 := h.md5(file.buffer);
      if env.selectFails {
        return Err(UploadError);
      }
      if DuplicateExists(rows, userId, md5) {
        return Err(DuplicatePhoto);
      }
      if env.metadata.None? {
        return Err(UploadError);
      }
      var path := StoragePath(userId, env.timestamp, file.originalName);
      if env.storageFails || path in blobs {
        return Err(UploadFailed(env.storageMessage));
      }
      blobs := blobs[path := Original(file.buffer, file.mimeType)];
      GenerateThumbnails(path, env.thumbnailOk);
      var row := NewRow(file, userId, h, env);
      if InsertRejected(rows, users.Keys, row, env) {
        return Err(UploadError);
      }
      if NoSameUserDuplicates(rows) {
        InsertKeepsNoDuplicates(rows, row);
      }
      rows := rows + [row];
      UpdateUserStorage(userId, file.size);
      r := Ok(row);
    }

    /**
     * Deletes the caller's photo: the original, then the three renditions,
     * then the row. A refused removal from the store is only logged; a
     * database error ends the call after the objects are gone.
     */
    method DeletePhoto(photoId: string, userId: string, removeOriginalOk: bool, removeThumbnailsOk: bool, dbError: Option<string>)
      returns (r: Result<(), Error>)
      requires Valid()
      modifies this`rows, this`blobs
      ensures Valid() && users == old(users)
      ensures old(NoSameUserDuplicates(rows)) ==> NoSameUserDuplicates(rows)
      ensures GetPhotoById(old(rows), photoId, userId).Err? ==>
        r == Err(App(PhotoNotFound)) && rows == old(rows) && blobs == old(blobs)
      ensures GetPhotoById(old(rows), photoId, userId).Ok? ==>
        var path := GetPhotoById(old(rows), photoId, userId).value.filePath;
        && blobs == old(blobs) - (if removeOriginalOk then {path} else {})
                               - (if removeThumbnailsOk then RenditionPaths(path) else {})
        && (dbError.Some? ==> r == Err(Other(dbError.value)) && rows == old(rows))
        && (dbError.None? ==> r == Ok(()) && rows == RemoveOwned(old(rows), photoId, userId))
    {
      var found := GetPhotoById(rows, photoId, userId);
      if found.Err? {
        return Err(App(found.error));
      }
      var path := found.value.filePath;
      if removeOriginalOk {
        blobs := blobs - {path};
      }
      if removeThumbnailsOk {
        blobs := blobs - RenditionPaths(path);
      }
      if dbError.Some? {
        return Err(Other(dbError.value));
      }
      RemoveOwnedKeepsConstraints(rows, users.Keys, photoId, userId);
      if NoSameUserDuplicates(rows) {
        RemoveOwnedKeepsNoDuplicates(rows, photoId, userId);
      }
      rows := RemoveOwned(rows, photoId, userId);
      UpdateUserStorage(userId, -found.value.fileSize);
      r := Ok(());
    }
  }
}
