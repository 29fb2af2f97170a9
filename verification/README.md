# mizzap photo backend — a Dafny model

mizzap is a photo-storage backend. Users register and log in, upload photos, and list, fetch and delete them. This project models the core of that backend and proves properties of the model:

- **The photo service** (`PhotoService` in `photo_service.dfy`, with its string work in `photo_paths.dfy`).
  - The class `PhotoService.PhotoService` holds the `photos` table as a sequence of rows and the object store's bucket as a map from path to blob. It also keeps the users table, which it only reads, for the foreign key.
  - `UploadPhoto` runs the upload pipeline in the source's order:
    1. check the MIME prefix;
    2. run the per-user MD5 duplicate check;
    3. read the image metadata;
    4. build the storage path;
    5. write the original (no overwrite);
    6. try the three thumbnails, best effort;
    7. insert the row.
  - `DeletePhoto` removes the original, the three rendition paths and the row.
  - The reads are functions of the table contents: `GetPhotoById`, `ListPhotos` and `GetThumbnailUrl`.
- **The data model** (`schema.dfy`): the user and photo rows, their insert shapes with the column defaults, the tier and status enumerations, the varchar lengths, and the two DTO projections.
- **Request validation** (`auth_types.dfy`): the registration and login rules, and the token payload.
- **The authentication middleware** (`auth_middleware.dfy`): Bearer-header parsing, and a `Request` whose `user` the middleware sets.
- **The error handler** (`error_handler.dfy`): it classifies an error into a status and a JSON envelope. There is also the 404 handler.

Anything outside the program is passed in as a parameter:

- MD5 and SHA-256, as two functions of the bytes.
- The image metadata and EXIF fields.
- The clocks and the database's generated id and time.
- Whether each write succeeds: upload's duplicate query and insert, the original and rendition writes, and delete's removals and row delete.
- E-mail validity, as the predicate `isEmail`.
- Token verification, as `verify`.
- The public-URL builder, as `publicUrl`.

The database's sort order is also an input. `ListPhotos` is given the database's sorted result of the caller's rows. Its precondition requires that result to be a sorted permutation of those rows, and it leaves the order among equal keys open.

Some behaviour is proved as the code is written, not as one might expect:

- `storageUsedBytes` is never changed. Upload and delete leave the users table as it was, because the storage accounting only logs.
- The table has no constraint against a user holding the same content twice. Only the service's check prevents it, and only for sequential uploads.
- An original whose stored path has no extension is overwritten by its own renditions. The thumbnail path of such a path is the path itself, and rendition writes overwrite. An example is a file uploaded as `photo`.
- A failure after the original is written leaves that object in the store.

## Model

| member | source | states |
|---|---|---|
| `ErrorHandler.AppErrorKeepsFields` | backend/src/middleware/errorHandler.ts:20-31 | An AppError keeps the status, code, message and details it was built with, and its name is "AppError". |
| `ErrorHandler.HandleError` | backend/src/middleware/errorHandler.ts:37-85 | The body always has success false. An AppError maps to its own status, code, message and details. A validation error maps to 400 / VALIDATION_ERROR / "Invalid request data" with the issues as details. Any other error maps to 500 / INTERNAL_SERVER_ERROR with no details; its own message is shown only in development, otherwise "An unexpected error occurred". |
| `ErrorHandler.NotFoundHandler` | backend/src/middleware/errorHandler.ts:90-98 | Always 404, success false, code NOT_FOUND with its fixed message and no details. |
| `AuthTypes.ValidateRegister` | backend/src/types/auth.types.ts:7-16 | Accepted exactly when all of these hold: the e-mail is valid; the password has at least 8 characters; it has an uppercase letter A-Z; it has a lowercase letter a-z; it has a digit 0-9; and the full name, if present, has at least 2 characters. An accepted input is returned unchanged. A refusal lists at most six issues, and a short password is always among them with its own message. |
| `AuthTypes.ValidateLogin` | backend/src/types/auth.types.ts:22-25 | Accepted exactly when the e-mail is valid and the password is non-empty; an accepted input is returned unchanged. |
| `AuthTypes.RegisterPasswordPassesLogin` | backend/src/types/auth.types.ts:7-25 | Every registration that validates has credentials that pass login validation. |
| `AuthTypes.LoginIsLaxerThanRegister` | backend/src/types/auth.types.ts:22-25 | For any valid e-mail there is a password that login accepts and registration refuses. |
| `AuthTypes.MissingDigitReported` | backend/src/types/auth.types.ts:10-14 | A password meeting every rule except the digit rule is refused with exactly the e-mail issues and the one "at least one number" issue. |
| `AuthMiddleware.BearerToken` | backend/src/middleware/auth.middleware.ts:18-22 | A token is found exactly when the header is present and starts with the case-sensitive "Bearer "; then "Bearer " followed by the token is the header. |
| `AuthMiddleware.BearerTokenRoundTrip` | backend/src/middleware/auth.middleware.ts:22 | Parsing "Bearer " + t gives back t, for every t. |
| `AuthMiddleware.SchemeIsExact` | backend/src/middleware/auth.middleware.ts:18 | "bearer x" and "Bearer" carry no token; "Bearer " carries the empty token, which goes on to verification. |
| `AuthMiddleware.Request.constructor` | backend/src/types/auth.types.ts:61-63 | A new request has its header and no user attached. |
| `AuthMiddleware.Authenticate` | backend/src/middleware/auth.middleware.ts:9-34 | Control passes on exactly once. With no usable header, the call forwards NO_TOKEN/401 and the user is unchanged. If verification fails, its error is forwarded and the user is unchanged. Otherwise the call continues with no error and the user is the verified payload. |
| `Strings.NatToDecimal` | backend/src/services/photo.service.ts:86-88 | The timestamp is rendered as a non-empty string of decimal digits, with a leading '0' only for 0. |
| `Strings.DecimalRoundTrip` | backend/src/services/photo.service.ts:86-88 | Reading the rendered digits back gives the number. |
| `Schema.ParseTier` | backend/src/db/schema.ts:7-8 | A stored name is a tier exactly when it is free, pro or enterprise, and the tier's name is that string. |
| `Schema.TierNamesRoundTrip` | backend/src/db/schema.ts:7-8 | Every tier's name is in the list and reads back as that tier. |
| `Schema.ParseStatus` | backend/src/db/schema.ts:88-89 | A stored name is an upload status exactly when it is pending, uploaded, processed or failed, and the status's name is that string. |
| `Schema.StatusNamesRoundTrip` | backend/src/db/schema.ts:88-89 | Every status's name is in the list and reads back as that status. |
| `Schema.ApplyUserDefaults` | backend/src/db/schema.ts:35-69 | A new user gets these defaults: tier free, quota 5·1024³ bytes, 0 bytes used, active, and both timestamps set to the insert time. deletedAt is kept as given. |
| `Schema.UserDefaultsKeepGivenValues` | backend/src/db/schema.ts:35-69 | Defaults only fill gaps: a fully spelled-out user row is stored as given. |
| `Schema.ApplyPhotoDefaults` | backend/src/db/schema.ts:95-134 | A new photo row keeps the given file fields and digests. Where a column is left out, it gets: a generated id; status pending; hasDuplicates false; and uploadedAt, createdAt and updatedAt set to the insert time. A given status is kept. |
| `Schema.PhotoDefaultsKeepGivenValues` | backend/src/db/schema.ts:95-134 | A fully spelled-out photo row is stored as given. |
| `Schema.TableAdmitsSameUserDuplicates` | backend/src/db/schema.ts:136-139 | Some table meets every declared constraint (primary key, foreign key, column lengths) yet has one user holding two rows with the same MD5. |
| `Schema.PhotoDTORoundTrip` | backend/src/db/schema.ts:150-153 | A photo's DTO, given back the three digests, is the photo: the DTO drops nothing else. |
| `Schema.PhotoDTOHidesExactlyDigests` | backend/src/db/schema.ts:150-153 | Two photos have the same DTO exactly when they differ at most in their three digests. |
| `Schema.UserDTOHidesExactlyDeletedAt` | backend/src/db/schema.ts:80-83 | A user's DTO, given back deletedAt, is the user. Two users have the same DTO exactly when they differ at most in deletedAt. |
| `PhotoPaths.SanitizeCharwise` | backend/src/services/photo.service.ts:87 | The sanitised name has the original's length. Each character in [a-zA-Z0-9.-] is kept, and every other character becomes '_'. |
| `PhotoPaths.SanitizedCharsAreSafe` | backend/src/services/photo.service.ts:87 | A sanitised name holds only allowed characters and '_'; in particular no '/'. |
| `PhotoPaths.SanitizeIdempotent` | backend/src/services/photo.service.ts:87 | Sanitising twice is sanitising once. |
| `PhotoPaths.SanitizeKeepsSafeNames` | backend/src/services/photo.service.ts:87 | A name made only of allowed characters is unchanged. |
| `PhotoPaths.StoragePathLayout` | backend/src/services/photo.service.ts:86-88 | The path is userId + "/" + timestamp + "-" + sanitised name. It starts with userId + "/", no '/' follows, and it ends with the sanitised name. |
| `PhotoPaths.StoragePathsSeparateUsers` | backend/src/services/photo.service.ts:88 | Two different user ids without '/' never produce the same storage path. |
| `PhotoPaths.StoragePathsSeparateTimes` | backend/src/services/photo.service.ts:86-88 | One user's uploads at different timestamps never produce the same storage path, whatever the file names. |
| `PhotoPaths.ThumbnailPath` | backend/src/services/photo.service.ts:156 | If the last '.' is followed by at least one character, the result is the text before that '.' plus "_<size>.jpg". Otherwise the path is unchanged. |
| `PhotoPaths.TrailingDotKeepsPath` | backend/src/services/photo.service.ts:156 | A path ending in '.' is left unchanged. |
| `PhotoPaths.ThumbnailPathsDistinct` | backend/src/services/photo.service.ts:156 | With an extension, each rendition path differs from the original and the three sizes get three different paths. Without one, every rendition path is the original's path. |
| `PhotoService.NewRow` | backend/src/services/photo.service.ts:106-122 | The inserted row has: the generated id; the caller as owner; the unsanitised original name; the storage path; the file's size and MIME type; both digests; and status uploaded with hasDuplicates false. Width and height are null when 0 or absent, and otherwise the image's own values. The capture date is the EXIF original date, else the EXIF creation date, else the current time. Latitude, longitude and camera model are null when empty or absent, and otherwise the EXIF values. uploadedAt, createdAt and updatedAt are the database's insert time. The perceptual hash, quality score, duration and processedAt are null. |
| `PhotoService.InsertKeepsNoDuplicates` | backend/src/services/photo.service.ts:63-72 | Adding a row whose MD5 its owner does not hold yet keeps "no user holds two rows with one MD5". |
| `PhotoService.SameContentTwiceIsDuplicate` | backend/src/services/photo.service.ts:63-72 | After a user's upload is stored, the same bytes from the same user fail with DUPLICATE_PHOTO. |
| `PhotoService.DuplicatesArePerUser` | backend/src/services/photo.service.ts:63-72 | One user's upload never makes another user's identical upload a duplicate. |
| `PhotoService.WriteThumbsKeys` | backend/src/services/photo.service.ts:139-169 | Generation adds exactly the paths of the sizes that succeeded. |
| `PhotoService.WriteThumbsKeepsOthers` | backend/src/services/photo.service.ts:139-169 | An object that no successful rendition targets is unchanged. |
| `PhotoService.WriteThumbsStoresRendition` | backend/src/services/photo.service.ts:146-168 | For a path with an extension, each size that succeeds is stored at its own path, whichever other sizes failed. |
| `PhotoService.ExtensionlessOriginalIsOverwritten` | backend/src/services/photo.service.ts:156-164 | For a path without an extension, the original is replaced by the last rendition that succeeded, in the order thumb, preview, web. It survives only if all three fail. |
| `PhotoService.FindOwned` | backend/src/services/photo.service.ts:229-234 | None exactly when no row has this id and this owner; otherwise a table row with both. |
| `PhotoService.GetPhotoById` | backend/src/services/photo.service.ts:229-241 | It fails exactly when no row with this id belongs to the caller, and then always with PHOTO_NOT_FOUND: a missing id and another user's photo look the same. Otherwise it returns a table row with this id owned by the caller. |
| `PhotoService.GetPhotoByIdFindsTheRow` | backend/src/services/photo.service.ts:229-241 | With unique ids, the owner's lookup of a row's id returns that very row. |
| `PhotoService.InsertedPhotoIsVisible` | backend/src/services/photo.service.ts:124 | A row inserted with a fresh id is what its owner's lookup returns, and it is among the owner's rows. |
| `PhotoService.GetThumbnailUrl` | backend/src/services/photo.service.ts:278-287 | It fails exactly when the lookup fails, with PHOTO_NOT_FOUND. Otherwise it gives the public URL of the chosen size's rendition path (thumb by default) of the caller's photo. |
| `Seqs.Filter` | backend/src/services/photo.service.ts:199-202 | A `where` selection keeps every element that satisfies the condition and nothing else. Each kept element appears exactly as many times as in the input. |
| `Seqs.FilterKeepsPairwise` | backend/src/services/photo.service.ts:269 | A selection keeps the table order, so a property of every ordered pair of rows holds of every ordered pair of the rows kept. |
| `PhotoService.OwnedRows` | backend/src/services/photo.service.ts:199-202 | The caller's rows: every one of them, each as many times as in the table, and only rows of the table owned by the caller. |
| `PhotoService.OrderedResultRows` | backend/src/services/photo.service.ts:207-213 | A sorted result holds as many rows as the caller owns, each one a table row of the caller. |
| `PhotoService.Window` | backend/src/services/photo.service.ts:212-213 | OFFSET/LIMIT select the `limit` elements from position `offset`, fewer near the end, none past it. |
| `PhotoService.WindowKeepsOrder` | backend/src/services/photo.service.ts:207-213 | A window of a sorted result is sorted. |
| `PhotoService.WindowsAdjoin` | backend/src/services/photo.service.ts:212-213 | Two windows of one width, one after the other, make up the window of twice that width. |
| `PhotoService.ListPhotos` | backend/src/services/photo.service.ts:183-224 | Page defaults to 1 and limit to 20, also when 0; offset is (page-1)·limit. A negative OFFSET is an error, and otherwise a negative LIMIT is; the offset is tested first, as Postgres does. Otherwise: the photos are the window of the sorted result at that offset; they are all the caller's rows and are in the requested order; total is the caller's row count; and hasMore is offset + returned < total. |
| `PhotoService.HasMoreIffPagesShort` | backend/src/services/photo.service.ts:192-221 | When listing succeeds, page and limit are at least 1, and hasMore holds exactly when page·limit < total. |
| `PhotoService.ConsecutivePagesAdjoin` | backend/src/services/photo.service.ts:192-213 | Over the same sorted result, page p followed by page p+1 is the two-page window at page p's offset, so no photo is skipped or repeated. |
| `PhotoService.TwentyFiveInPagesOfTen` | backend/src/services/photo.service.ts:192-222 | With 25 photos and limit 10, page 2 is the 11th to 20th with hasMore, and page 3 is the last five without it. |
| `PhotoService.GeneratedRenditionsAreDeleted` | backend/src/services/photo.service.ts:259-266 | Every path generation can write is the original's or one of the three paths deletion removes. |
| `PhotoService.RemoveOwned` | backend/src/services/photo.service.ts:269 | The delete keeps exactly the rows that do not have both this id and this owner. |
| `PhotoService.RemoveOwnedKeepsNoDuplicates` | backend/src/services/photo.service.ts:269 | Deleting rows keeps "no user holds two rows with one MD5". |
| `PhotoService.RemoveOwnedKeepsConstraints` | backend/src/services/photo.service.ts:269 | Deleting rows keeps the table's constraints: unique ids, foreign key and column lengths. |
| `PhotoService.DeletedPhotoIsGone` | backend/src/services/photo.service.ts:246-273 | After the delete, the owner's lookup of that id fails and the owner's rows no longer include it. |
| `PhotoService.PhotoService.constructor` | backend/src/services/photo.service.ts:37-45 | Over a users table that meets its own constraints (ids as keys, unique e-mails), a new service starts with an empty table and bucket, and satisfies the table constraints. |
| `PhotoService.PhotoService.UpdateUserStorage` | backend/src/services/photo.service.ts:174-178 | Storage accounting changes nothing: the users, the rows and the bucket stay as they were. |
| `PhotoService.PhotoService.GenerateThumbnails` | backend/src/services/photo.service.ts:139-169 | The loop tries thumb, preview and web in turn. It writes each rendition that succeeds at its thumbnail path, overwriting, and swallows every failure. |
| `PhotoService.PhotoService.UploadPhoto` | backend/src/services/photo.service.ts:50-134 | These checks run in order, and the first that fails ends the upload with nothing changed: non-image (INVALID_FILE_TYPE/400), duplicate query error (UPLOAD_ERROR), same-user MD5 duplicate (DUPLICATE_PHOTO/409), unreadable image (UPLOAD_ERROR), store refusal or path taken (UPLOAD_FAILED/500 with the store's message). Past them, the original and the successful renditions are written. A refused insert then gives UPLOAD_ERROR/500 and leaves the objects in place. Otherwise exactly the new row is appended and returned. The table constraints and "no same-user duplicates" are kept, and users are unchanged. |
| `PhotoService.PhotoService.DeletePhoto` | backend/src/services/photo.service.ts:246-273 | Not found, or another user's photo: PHOTO_NOT_FOUND and nothing changes. Otherwise the original is removed and the three rendition paths are removed; a refused removal changes nothing and does not stop the call. Then the row is deleted, unless the database fails, in which case its error is returned with the objects already gone. The table constraints and "no same-user duplicates" are kept, and users are unchanged. |

## Left out

- Supabase storage and Drizzle/Postgres calls are replaced by the in-memory table and bucket. Flags give the failures of upload's duplicate query and insert, of the original and rendition writes, and of delete's removals and row delete. The store's returned `path` is taken to be the requested path. Cache-control headers are not modelled.
- MD5 and SHA-256 are uninterpreted functions of the bytes, so the 32- and 64-character digest lengths are not derived. The column lengths are checked by the insert instead.
- Image processing is not modelled: sharp's metadata, resizing and JPEG encoding, and exifr's parsing. Dimensions, EXIF fields and whether each rendition succeeds are inputs. A rendition blob records only its size, not its pixels.
- `Date.now()` and `new Date()` are parameters. Timestamps are integers.
- Storage-quota accounting is a logging no-op in the source, so no quota invariant is claimed. The service has no quota error.
- Concurrency: the race between the duplicate check and the insert is not modelled. Nothing in the table would catch it.
- The order among rows with equal sort keys is left to the database (the `ordered` input), so two separate queries may order ties differently.
- `PhotoService.KeyLe` orders file names by code point; Postgres collation is not modelled. Null capture dates sort last ascending and first descending, as Postgres places them.
- Page and limit values that are not integers, and the controller's parsing of query strings, are not modelled.
- `PhotoService.GetPhotoById` treats ids as plain strings. Postgres raises an error for text that is not a uuid; that error path is not modelled.
- The reads cannot fail in the model: `GetPhotoById`'s query, `ListPhotos`' count and page queries, `GetThumbnailUrl`'s lookup and `DeletePhoto`'s initial lookup. In the source, a failing query there propagates to the error handler and becomes 500 INTERNAL_SERVER_ERROR; in `deletePhoto` that happens before anything is removed. That path is not modelled.
- E-mail validity (zod's own pattern) is the abstract predicate `isEmail`. Token signing and verification (`auth.service.ts`) are the abstract `verify`. The authentication service is not part of this model.
- HTTP plumbing, routes, the multer configuration (100 MB limit, a second MIME check), server setup, configuration loading and logging are not modelled. The development flag is a parameter of `HandleError`.
- Text is a sequence of Unicode scalar values, while JavaScript counts UTF-16 code units. The minimum password and name lengths therefore differ for characters outside the Basic Multilingual Plane. Sanitisation also writes one '_' for such a character where the source writes two.
- `hashPerceptual`, `qualityScore` and `durationSeconds` are never filled in by the service; they are carried as columns without logic. `onDelete: 'cascade'` from users to photos is not modelled, because the service never deletes users.
- `PhotoDTO` and `UserDTO` are declared types that no code builds. Their extra fields (`thumbnailUrl`, `fileSizeMB`, the GB figures) are therefore parameters of the projections. The photo controller sends an object of its own, with a relative thumbnail URL; the controllers are not part of this model.
- sharp's error is not an AppError, so an image whose metadata cannot be read fails with UPLOAD_ERROR/500. An upload's row is stored with status uploaded, not the column default pending.
- `AuthTypes.RegisterInput` and `AuthTypes.LoginInput` hold strings, so a request whose e-mail, password or full name is missing or is not a string cannot be expressed. zod's refusal of such a request, an invalid_type issue ("Required"), is not modelled.
- `PhotoService.ListPhotos` assumes the query builder passes a negative LIMIT on to Postgres, which refuses it. No builder version is pinned; releases that leave out a negative LIMIT would instead return every row from the offset on, and that behaviour is not modelled.
