/**
 * The two tables of the backend (`mizzap_users` and `photos`), their insert
 * shapes with the column defaults the database fills in, the varchar length
 * limits, and the DTO projections sent to clients.
 */
module Schema {
  import opened Wrappers

  /** Timestamps are milliseconds since the epoch. */
  type Timestamp = int

  // ---------------------------------------------------------------------------
  // Enumerations
  // ---------------------------------------------------------------------------

  datatype SubscriptionTier = Free | Pro | Enterprise

  datatype UploadStatus = Pending | Uploaded | Processed | Failed

  /** The string each tier is stored as. */
  function TierName(t: SubscriptionTier): string {
    match t
    case Free => "free"
    case Pro => "pro"
    case Enterprise => "enterprise"
  }

  /** The string each status is stored as. */
  function StatusName(s: UploadStatus): string {
    match s
    case Pending => "pending"
    case Uploaded => "uploaded"
    case Processed => "processed"
    case Failed => "failed"
  }

  const SubscriptionTiers: seq<string> := ["free", "pro", "enterprise"]
  const UploadStatuses: seq<string> := ["pending", "uploaded", "processed", "failed"]

  /** Reads a stored tier name back; only the listed names are tiers. */
  function ParseTier(name: string): (r: Option<SubscriptionTier>)
    ensures r.Some? <==> name in SubscriptionTiers
    ensures r.Some? ==> TierName(r.value) == name
  {
    if name == "free" then Some(Free)
    else if name == "pro" then Some(Pro)
    else if name == "enterprise" then Some(Enterprise)
    else None
  }

  /** Reads a stored status name back; only the listed names are statuses. */
  function ParseStatus(name: string): (r: Option<UploadStatus>)
    ensures r.Some? <==> name in UploadStatuses
    ensures r.Some? ==> StatusName(r.value) == name
  {
    if name == "pending" then Some(Pending)
    else if name == "uploaded" then Some(Uploaded)
    else if name == "processed" then Some(Processed)
    else if name == "failed" then Some(Failed)
    else None
  }

  lemma TierNamesRoundTrip(t: SubscriptionTier)
    ensures TierName(t) in SubscriptionTiers && ParseTier(TierName(t)) == Some(t)
  {
  }

  lemma StatusNamesRoundTrip(s: UploadStatus)
    ensures StatusName(s) in UploadStatuses && ParseStatus(StatusName(s)) == Some(s)
  {
  }

  // ---------------------------------------------------------------------------
  // Column defaults and lengths
  // ---------------------------------------------------------------------------

  /** 5 GiB, the default `storage_quota_bytes`. */
  const DefaultStorageQuotaBytes: int := 5368709120
  const DefaultStorageUsedBytes: int := 0
  const DefaultTier: SubscriptionTier := Free
  const DefaultUploadStatus: UploadStatus := Pending

  const EmailLength := 255
  const FileNameLength := 255
  const FilePathLength := 500
  const MimeTypeLength := 50
  /** An MD5 digest in hex. */
  const HashMd5Length := 32
  /** A SHA-256 digest in hex. */
  const HashSha256Length := 64
  const HashPerceptualLength := 255
  const CoordinateLength := 20
  const CameraModelLength := 255
  const UploadStatusLength := 20
  const QualityScoreLength := 10

  /** A nullable varchar(n) value fits its column. */
  predicate FitsOpt(v: Option<string>, n: nat) {
    v.None? || |v.value| <= n
  }

  // ---------------------------------------------------------------------------
  // Users
  // ---------------------------------------------------------------------------

  datatype Theme = Light | Dark | Auto

  datatype UserPreferences = UserPreferences(language: string, theme: Theme, emailNotifications: bool, pushNotifications: bool)

  datatype PrivacySettings = PrivacySettings(euDataResidency: bool, gdprConsent: bool, consentDate: string)

  /** A row of `mizzap_users`. */
  datatype MizzapUser = MizzapUser(
    id: string,
    email: string,
    firstName: Option<string>,
    lastName: Option<string>,
    avatarUrl: Option<string>,
    bio: Option<string>,
    subscriptionTier: SubscriptionTier,
    storageQuotaBytes: int,
    storageUsedBytes: int,
    privacySettings: PrivacySettings,
    preferences: UserPreferences,
    isActive: bool,
    createdAt: Timestamp,
    updatedAt: Timestamp,
    deletedAt: Option<Timestamp>,
    lastLoginAt: Option<Timestamp>)

  /** The insert shape of `mizzap_users`: columns with a default may be left out. */
  datatype NewMizzapUser = NewMizzapUser(
    id: string,
    email: string,
    firstName: Option<string>,
    lastName: Option<string>,
    avatarUrl: Option<string>,
    bio: Option<string>,
    subscriptionTier: Option<SubscriptionTier>,
    storageQuotaBytes: Option<int>,
    storageUsedBytes: Option<int>,
    privacySettings: PrivacySettings,
    preferences: UserPreferences,
    isActive: Option<bool>,
    createdAt: Option<Timestamp>,
    updatedAt: Option<Timestamp>,
    deletedAt: Option<Timestamp>,
    lastLoginAt: Option<Timestamp>)

  /** The row the database stores for an insert made at time `now`. */
  function ApplyUserDefaults(ins: NewMizzapUser, now: Timestamp): (u: MizzapUser)
    ensures u.id == ins.id && u.email == ins.email
    ensures ins.subscriptionTier.None? ==> u.subscriptionTier == Free
    ensures ins.storageQuotaBytes.None? ==> u.storageQuotaBytes == 5 * 1024 * 1024 * 1024
    ensures ins.storageUsedBytes.None? ==> u.storageUsedBytes == 0
    ensures ins.isActive.None? ==> u.isActive
    ensures ins.createdAt.None? ==> u.createdAt == now
    ensures ins.updatedAt.None? ==> u.updatedAt == now
    ensures u.deletedAt == ins.deletedAt
  {
    MizzapUser(
      ins.id, ins.email, ins.firstName, ins.lastName, ins.avatarUrl, ins.bio,
      ins.subscriptionTier.GetOr(DefaultTier),
      ins.storageQuotaBytes.GetOr(DefaultStorageQuotaBytes),
      ins.storageUsedBytes.GetOr(DefaultStorageUsedBytes),
      ins.privacySettings, ins.preferences,
      ins.isActive.GetOr(true),
      ins.createdAt.GetOr(now), ins.updatedAt.GetOr(now),
      ins.deletedAt, ins.lastLoginAt)
  }

  /** The insert that spells out every column of `u`. */
  function UserAsInsert(u: MizzapUser): NewMizzapUser {
    NewMizzapUser(
      u.id, u.email, u.firstName, u.lastName, u.avatarUrl, u.bio,
      Some(u.subscriptionTier), Some(u.storageQuotaBytes), Some(u.storageUsedBytes),
      u.privacySettings, u.preferences, Some(u.isActive),
      Some(u.createdAt), Some(u.updatedAt), u.deletedAt, u.lastLoginAt)
  }

  /** Defaults only fill in what an insert leaves out: a fully spelled-out row is stored as given. */
  lemma UserDefaultsKeepGivenValues(u: MizzapUser, now: Timestamp)
    ensures ApplyUserDefaults(UserAsInsert(u), now) == u
  {
  }

  /**
   * The users table's own constraints: rows are keyed by their id, and `email`
   * is declared unique.
   */
  ghost predicate UsersTableConstraints(users: map<string, MizzapUser>) {
    && (forall id :: id in users ==> users[id].id == id && |users[id].email| <= EmailLength)
    && (forall a, b :: a in users && b in users && a != b ==> users[a].email != users[b].email)
  }

  // ---------------------------------------------------------------------------
  // Photos
  // ---------------------------------------------------------------------------

  /** A row of `photos`. */
  datatype Photo = Photo(
    id: string,
    userId: string,
    fileName: string,
    filePath: string,
    fileSize: int,
    mimeType: string,
    hashMd5: Option<string>,
    hashSha256: Option<string>,
    hashPerceptual: Option<string>,
    width: Option<int>,
    height: Option<int>,
    durationSeconds: Option<int>,
    createdDate: Option<Timestamp>,
    locationLatitude: Option<string>,
    locationLongitude: Option<string>,
    cameraModel: Option<string>,
    uploadStatus: UploadStatus,
    hasDuplicates: bool,
    qualityScore: Option<string>,
    uploadedAt: Timestamp,
    processedAt: Option<Timestamp>,
    createdAt: Timestamp,
    updatedAt: Timestamp)

  /** The insert shape of `photos`: `id`, the status, the flag and the timestamps have defaults. */
  datatype NewPhoto = NewPhoto(
    id: Option<string>,
    userId: string,
    fileName: string,
    filePath: string,
    fileSize: int,
    mimeType: string,
    hashMd5: Option<string>,
    hashSha256: Option<string>,
    hashPerceptual: Option<string>,
    width: Option<int>,
    height: Option<int>,
    durationSeconds: Option<int>,
    createdDate: Option<Timestamp>,
    locationLatitude: Option<string>,
    locationLongitude: Option<string>,
    cameraModel: Option<string>,
    uploadStatus: Option<UploadStatus>,
    hasDuplicates: Option<bool>,
    qualityScore: Option<string>,
    uploadedAt: Option<Timestamp>,
    processedAt: Option<Timestamp>,
    createdAt: Option<Timestamp>,
    updatedAt: Option<Timestamp>)

  /**
   * The row the database stores for an insert made at time `now`, where
   * `randomId` is the uuid the database would generate.
   */
  function ApplyPhotoDefaults(ins: NewPhoto, randomId: string, now: Timestamp): (p: Photo)
    ensures p.userId == ins.userId && p.fileName == ins.fileName && p.filePath == ins.filePath
    ensures p.fileSize == ins.fileSize && p.mimeType == ins.mimeType
    ensures p.hashMd5 == ins.hashMd5 && p.hashSha256 == ins.hashSha256
    ensures ins.id.None? ==> p.id == randomId
    ensures ins.uploadStatus.None? ==> p.uploadStatus == Pending
    ensures ins.uploadStatus.Some? ==> p.uploadStatus == ins.uploadStatus.value
    ensures ins.hasDuplicates.None? ==> !p.hasDuplicates
    ensures ins.uploadedAt.None? ==> p.uploadedAt == now
    ensures ins.createdAt.None? ==> p.createdAt == now
    ensures ins.updatedAt.None? ==> p.updatedAt == now
  {
    Photo(
      ins.id.GetOr(randomId), ins.userId, ins.fileName, ins.filePath, ins.fileSize, ins.mimeType,
      ins.hashMd5, ins.hashSha256, ins.hashPerceptual,
      ins.width, ins.height, ins.durationSeconds,
      ins.createdDate, ins.locationLatitude, ins.locationLongitude, ins.cameraModel,
      ins.uploadStatus.GetOr(DefaultUploadStatus),
      ins.hasDuplicates.GetOr(false),
      ins.qualityScore,
      ins.uploadedAt.GetOr(now), ins.processedAt, ins.createdAt.GetOr(now), ins.updatedAt.GetOr(now))
  }

  /** The insert that spells out every column of `p`. */
  function PhotoAsInsert(p: Photo): NewPhoto {
    NewPhoto(
      Some(p.id), p.userId, p.fileName, p.filePath, p.fileSize, p.mimeType,
      p.hashMd5, p.hashSha256, p.hashPerceptual,
      p.width, p.height, p.durationSeconds,
      p.createdDate, p.locationLatitude, p.locationLongitude, p.cameraModel,
      Some(p.uploadStatus), Some(p.hasDuplicates), p.qualityScore,
      Some(p.uploadedAt), p.processedAt, Some(p.createdAt), Some(p.updatedAt))
  }

  lemma PhotoDefaultsKeepGivenValues(p: Photo, randomId: string, now: Timestamp)
    ensures ApplyPhotoDefaults(PhotoAsInsert(p), randomId, now) == p
  {
  }

  /** Every varchar column of the row is within its declared length. */
  predicate ColumnsFit(p: Photo) {
    && |p.fileName| <= FileNameLength
    && |p.filePath| <= FilePathLength
    && |p.mimeType| <= MimeTypeLength
    && FitsOpt(p.hashMd5, HashMd5Length)
    && FitsOpt(p.hashSha256, HashSha256Length)
    && FitsOpt(p.hashPerceptual, HashPerceptualLength)
    && FitsOpt(p.locationLatitude, CoordinateLength)
    && FitsOpt(p.locationLongitude, CoordinateLength)
    && FitsOpt(p.cameraModel, CameraModelLength)
    && |StatusName(p.uploadStatus)| <= UploadStatusLength
    && FitsOpt(p.qualityScore, QualityScoreLength)
  }

  predicate UniqueIds(rows: seq<Photo>) {
    forall i, j :: 0 <= i < j < |rows| ==> rows[i].id != rows[j].id
  }

  /**
   * The photos table's own constraints: a primary key, a foreign key to the
   * users table and the column lengths. There is no constraint on
   * (user_id, hash_md5): the index on it is only a comment.
   */
  predicate PhotosTableConstraints(rows: seq<Photo>, users: set<string>) {
    && UniqueIds(rows)
    && (forall i :: 0 <= i < |rows| ==> rows[i].userId in users && ColumnsFit(rows[i]))
  }

  /** No user holds two rows with the same MD5 digest. */
  predicate NoSameUserDuplicates(rows: seq<Photo>) {
    forall i, j ::
      0 <= i < j < |rows| && rows[i].userId == rows[j].userId && rows[i].hashMd5.Some? ==>
        rows[i].hashMd5 != rows[j].hashMd5
  }

  /** An example row, used to show what the table constraints allow. */
  function SampleRow(id: string, userId: string, md5: string): Photo {
    Photo(id, userId, "a.jpg", userId + "/1-a.jpg", 1, "image/jpeg",
          Some(md5), None, None, None, None, None, None, None, None, None,
          Uploaded, false, None, 0, None, 0, 0)
  }

  /** The table itself lets one user hold the same content twice. */
  lemma TableAdmitsSameUserDuplicates()
    ensures exists rows: seq<Photo>, users: set<string> ::
      PhotosTableConstraints(rows, users) && !NoSameUserDuplicates(rows)
  {
    var rows := [SampleRow("p1", "u", "d41d8cd98f00b204e9800998ecf8427e"),
                 SampleRow("p2", "u", "d41d8cd98f00b204e9800998ecf8427e")];
    assert !NoSameUserDuplicates(rows) by {
      assert rows[0].userId == rows[1].userId && rows[0].hashMd5 == rows[1].hashMd5;
    }
    assert PhotosTableConstraints(rows, {"u"});
  }

  // ---------------------------------------------------------------------------
  // DTO projections
  // ---------------------------------------------------------------------------

  /** A photo as sent to clients: no digests, plus a thumbnail URL and the size in MB. */
  datatype PhotoDTO = PhotoDTO(
    id: string,
    userId: string,
    fileName: string,
    filePath: string,
    fileSize: int,
    mimeType: string,
    width: Option<int>,
    height: Option<int>,
    durationSeconds: Option<int>,
    createdDate: Option<Timestamp>,
    locationLatitude: Option<string>,
    locationLongitude: Option<string>,
    cameraModel: Option<string>,
    uploadStatus: UploadStatus,
    hasDuplicates: bool,
    qualityScore: Option<string>,
    uploadedAt: Timestamp,
    processedAt: Option<Timestamp>,
    createdAt: Timestamp,
    updatedAt: Timestamp,
    thumbnailUrl: string,
    fileSizeMB: real)

  function ToPhotoDTO(p: Photo, thumbnailUrl: string, fileSizeMB: real): PhotoDTO {
    PhotoDTO(
      p.id, p.userId, p.fileName, p.filePath, p.fileSize, p.mimeType,
      p.width, p.height, p.durationSeconds,
      p.createdDate, p.locationLatitude, p.locationLongitude, p.cameraModel,
      p.uploadStatus, p.hasDuplicates, p.qualityScore,
      p.uploadedAt, p.processedAt, p.createdAt, p.updatedAt,
      thumbnailUrl, fileSizeMB)
  }

  /** The photo a DTO came from, given back the three digests it leaves out. */
  function FromPhotoDTO(d: PhotoDTO, md5: Option<string>, sha256: Option<string>, perceptual: Option<string>): Photo {
    Photo(
      d.id, d.userId, d.fileName, d.filePath, d.fileSize, d.mimeType,
      md5, sha256, perceptual,
      d.width, d.height, d.durationSeconds,
      d.createdDate, d.locationLatitude, d.locationLongitude, d.cameraModel,
      d.uploadStatus, d.hasDuplicates, d.qualityScore,
      d.uploadedAt, d.processedAt, d.createdAt, d.updatedAt)
  }

  /** The photo with its three digests blanked out. */
  function WithoutDigests(p: Photo): Photo {
    p.(hashMd5 := None, hashSha256 := None, hashPerceptual := None)
  }

  /** The DTO loses the digests and nothing else. */
  lemma PhotoDTORoundTrip(p: Photo, thumbnailUrl: string, fileSizeMB: real)
    ensures FromPhotoDTO(ToPhotoDTO(p, thumbnailUrl, fileSizeMB), p.hashMd5, p.hashSha256, p.hashPerceptual) == p
  {
  }

  /** Two photos give the same DTO exactly when they differ at most in their digests. */
  lemma PhotoDTOHidesExactlyDigests(p: Photo, q: Photo, thumbnailUrl: string, fileSizeMB: real)
    ensures ToPhotoDTO(p, thumbnailUrl, fileSizeMB) == ToPhotoDTO(q, thumbnailUrl, fileSizeMB)
        <==> WithoutDigests(p) == WithoutDigests(q)
  {
    var d, e := ToPhotoDTO(p, thumbnailUrl, fileSizeMB), ToPhotoDTO(q, thumbnailUrl, fileSizeMB);
    if d == e {
      assert WithoutDigests(p) == FromPhotoDTO(d, None, None, None);
      assert WithoutDigests(q) == FromPhotoDTO(e, None, None, None);
    }
  }

  /** A user as sent to clients: no `deletedAt`, plus the storage figures in GB. */
  datatype UserDTO = UserDTO(
    id: string,
    email: string,
    firstName: Option<string>,
    lastName: Option<string>,
    avatarUrl: Option<string>,
    bio: Option<string>,
    subscriptionTier: SubscriptionTier,
    storageQuotaBytes: int,
    storageUsedBytes: int,
    privacySettings: PrivacySettings,
    preferences: UserPreferences,
    isActive: bool,
    createdAt: Timestamp,
    updatedAt: Timestamp,
    lastLoginAt: Option<Timestamp>,
    storageUsedGB: real,
    storageQuotaGB: real)

  function ToUserDTO(u: MizzapUser, storageUsedGB: real, storageQuotaGB: real): UserDTO {
    UserDTO(
      u.id, u.email, u.firstName, u.lastName, u.avatarUrl, u.bio,
      u.subscriptionTier, u.storageQuotaBytes, u.storageUsedBytes,
      u.privacySettings, u.preferences, u.isActive,
      u.createdAt, u.updatedAt, u.lastLoginAt,
      storageUsedGB, storageQuotaGB)
  }

  function FromUserDTO(d: UserDTO, deletedAt: Option<Timestamp>): MizzapUser {
    MizzapUser(
      d.id, d.email, d.firstName, d.lastName, d.avatarUrl, d.bio,
      d.subscriptionTier, d.storageQuotaBytes, d.storageUsedBytes,
      d.privacySettings, d.preferences, d.isActive,
      d.createdAt, d.updatedAt, deletedAt, d.lastLoginAt)
  }

  /** Two users give the same DTO exactly when they differ at most in `deletedAt`. */
  lemma UserDTOHidesExactlyDeletedAt(u: MizzapUser, v: MizzapUser, usedGB: real, quotaGB: real)
    ensures FromUserDTO(ToUserDTO(u, usedGB, quotaGB), u.deletedAt) == u
    ensures ToUserDTO(u, usedGB, quotaGB) == ToUserDTO(v, usedGB, quotaGB)
        <==> u.(deletedAt := None) == v.(deletedAt := None)
  {
    var d, e := ToUserDTO(u, usedGB, quotaGB), ToUserDTO(v, usedGB, quotaGB);
    if d == e {
      assert u.(deletedAt := None) == FromUserDTO(d, None);
      assert v.(deletedAt := None) == FromUserDTO(e, None);
    }
  }
}
