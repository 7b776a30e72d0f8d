# funeral-service admin API, modelled in Dafny

The system is a NestJS/Prisma admin API for a funeral home's streaming rooms. It manages these records:

- headquarters (sites);
- the rooms inside each site;
- at most one IP camera per room, with its credentials and its PTZ (pan-tilt-zoom) movements;
- bookings of a room, called services, which may ask for the ceremony to be streamed;
- the stream rows (`CameraOnline`) that say whether a room's camera is live.

Beside the database, the API writes per-camera artifacts on the host:

- a bash script that runs ffmpeg on the camera's RTSP URL;
- a live directory for the HLS playlist;
- a systemd unit that runs the script.

It drives those artifacts with `systemctl`. A background tick switches bookings, and their cameras' stream rows, on and off as their time windows open and close.

The model is split into these modules:

- `Envelope` (`generateResponseApi`): the response envelope. Every service either returns it or throws it with a status.
- `Pagination` (`PaginationDto`): `parseInt` and `decodeURIComponent` as the DTO's transforms apply them, the paging defaults, and the page arithmetic.
- `CameraDto` (`CreateCameraDto`, `AuthCameraDto`): the field rules and the global validation pipe's whitelist, as lists of violations: as the DTO is written, and with the credentials validated as a nested object.
- `Store`: the tables, as maps keyed by id inside a `Database` class whose methods change them in place, plus the log of alert mails.
- `Headquarters`, `Rooms`, `Cameras`, `Services`, `Streamings`: one module per service.
  - Each guarded operation is an outcome function over a snapshot of the tables, with lemmas about it.
  - A `Database` method is proved to produce exactly that outcome.
  - Read-only operations (listings, PTZ listing, the command URL) are functions.
- `Worker` (the streaming worker): the tick as loops over the service and stream tables. It is proved against a specification of the two phases. The lemmas cover:
  - boundary inclusivity;
  - switching on and off within one tick;
  - back-to-back bookings;
  - idempotence;
  - all-or-nothing phases.
- `FileSystem`: the host as files, directories and the `systemctl` command log, inside a `Host` class.
- `Artifacts` (`camerasOnline.service`) and `LegacyArtifacts` (`camerasUtils.service`):
  - the script and unit texts;
  - the regex rewrite of the `ffmpeg -i` line, as string functions;
  - create, update, remove, up and down, as methods on the host.
- `Text`, `Sorting`, `Duplicates`: string helpers, the stable sort behind `Array.prototype.sort`, and the `indexOf` duplicate filter.

Time is an integer. Fresh ids (uuid), the one-time password and its bcrypt hash, and the order in which the database enumerates rows are parameters. So are the output of `systemctl is-active`, the listing of a directory, and the result of the PTZ HTTP call.

## Model

| member | source | states |
|---|---|---|
| Envelope.GenerateResponseApi | src/modules/functions/functions.service.ts:27-41 | the envelope is returned exactly when the kind is 'Objet' and thrown otherwise, with the envelope's status as the exception's status; `ok` is true only when passed as true; status defaults to 500 when absent or 0; data, meta and issues are copied unchanged |
| Envelope.Fail | src/modules/functions/functions.service.ts:27-41 | the `{status, message}` call every guard makes is a thrown, not-ok envelope with that status and message and no data |
| Envelope.Success | src/modules/functions/functions.service.ts:27-41 | an `ok: true` call with a status is returned only with 'Objet' (thrown otherwise) and carries that status, data and meta |
| Envelope.Unexpected | src/modules/functions/functions.service.ts:27-41 | the catch-all `generateResponseApi({})` is a thrown 500 with message INTERNAL_SERVER_ERROR and no data |
| Envelope.DefaultKindThrows | src/modules/functions/functions.service.ts:27 | every call without a kind throws, whatever `ok` says |
| Envelope.DefaultMessageMatchesOk | src/modules/functions/functions.service.ts:31-33 | without a message, the envelope's message is SUCCESSFUL exactly when it is `ok`, and INTERNAL_SERVER_ERROR otherwise |
| CameraDto.LengthMessages | src/modules/cameras/dtos/create-camera.dto.ts:9-12 | a string field reports no violation exactly when it is a string whose `isLength` count lies in the declared bounds; a non-string draws all three messages, `@IsString`'s last (decorators report bottom up), and a string at most one |
| CameraDto.RangeMessages | src/modules/cameras/dtos/create-camera.dto.ts:34-37 | an integer field reports no violation exactly when it is an integer in the declared range; `@Min`/`@Max` accept any number, so a fraction in range (1.5) draws only the `@IsInt` message, which always comes last; a non-number draws all three |
| CameraDto.IsLengthCount | src/modules/cameras/dtos/create-camera.dto.ts:10-11 | the length `@MinLength`/`@MaxLength` measure is at most the number of code points, and equal to it when the text holds no variation selector U+FE0E/U+FE0F |
| CameraDto.VariationSelectorNotCounted | src/modules/cameras/dtos/create-camera.dto.ts:10 | "ab" followed by U+FE0F holds three code points but fails `@MinLength(3)` |
| CameraDto.AuthCameraViolations | src/modules/cameras/dtos/create-camera.dto.ts:4-61 | the credentials draw no message exactly when userName has length 3..50, password 6..50, ipAddress is a string, both ports are integers in 1..65535 and both end points are URLs; the preview end point has no `@IsOptional`, so an absent one draws its URL message |
| CameraDto.CreateCameraViolations | src/modules/cameras/dtos/create-camera.dto.ts:94-97 | as written, the global pipe accepts a body exactly when its four decorated fields are valid and it carries neither `authCamera` (documented but not decorated) nor `movementsPTZ` (not declared) nor any other property; credentials are answered with "property authCamera should not exist" first |
| CameraDto.FieldViolations | src/modules/cameras/dtos/create-camera.dto.ts:63-92 | the four decorated fields draw no message exactly when name has length 3..50, active and hasPTZ are booleans and roomId is a version-4 UUID |
| CameraDto.NotAllowed | src/main.ts:16-20 | `forbidNonWhitelisted` reports each undecorated property, in order, as "property … should not exist" |
| CameraDto.CredentialsNeverInspected | src/modules/cameras/dtos/create-camera.dto.ts:94-97 | as written, the messages do not depend on what the credentials hold: nothing inside `authCamera` is ever validated |
| CameraDto.IntendedBodiesRejected | src/modules/cameras/dtos/create-camera.dto.ts:94-97 | every body the DTO means to accept (valid fields and valid credentials) is rejected as written, with the `authCamera` message |
| CameraDto.CreateCameraViolationsIntended | src/modules/cameras/dtos/create-camera.dto.ts:4-98 | with `authCamera` declared `@IsDefined() @ValidateNested() @Type(() => AuthCameraDto)`, a body draws no message exactly when its fields and its credentials are valid and it has no undeclared property; absent credentials draw the `@IsDefined` message "authCamera should not be null or undefined" |
| Pagination.TrimStart | src/common/dtos/pagination.dto.ts:12 | the white space `parseInt` skips is removed: the result is a suffix, starts with no space, and what was dropped is all blank |
| Pagination.DigitRun | src/common/dtos/pagination.dto.ts:12 | the length of the longest prefix of digits: every character before it is a digit and the one at it is not |
| Pagination.LeadingNumber | src/common/dtos/pagination.dto.ts:12 | there is a number exactly when the text starts with a digit |
| Pagination.DecimalDigitsValue | src/common/dtos/pagination.dto.ts:12 | the decimal text of a natural number consists of digits and reads back as that number |
| Pagination.DigitRunOfDigits | src/common/dtos/pagination.dto.ts:12 | on a text made only of digits the digit run is the whole text |
| Pagination.MathIntReadsDecimal | src/common/dtos/pagination.dto.ts:12 | the integer `parseInt` reads from the decimal text of any integer, negative ones included, is that integer |
| Pagination.ParseIntReadsDecimal | src/common/dtos/pagination.dto.ts:12 | `parseInt` of the decimal text of an integer of magnitude below 2^53 gives that integer back |
| Pagination.MathInt | src/common/dtos/pagination.dto.ts:12 | the integer `parseInt` reads: none for a blank text |
| Pagination.Nearest | src/common/dtos/pagination.dto.ts:12 | an integer rounded to a double: a multiple of the spacing of doubles at its magnitude, within half a spacing, exact below 2^53, and at least 1 for every positive integer |
| Pagination.ToNumber | src/common/dtos/pagination.dto.ts:12 | the Number value of an integer: an infinity of the integer's sign exactly from 2^1024 - 2^970 on, the integer itself below 2^53, and otherwise a finite value that is at least 1, or negative, exactly when the integer is |
| Pagination.ParseInt | src/common/dtos/pagination.dto.ts:12 | `parseInt` is NaN exactly when no integer is read (a blank text included); otherwise it is that integer's Number value, the integer itself below 2^53 |
| Pagination.FirstInexact | src/common/dtos/pagination.dto.ts:12 | 2^53 + 1 becomes the Number 2^53 |
| Pagination.OverlongNumberRejected | src/common/dtos/pagination.dto.ts:12-14 | a number of more than 309 decimal digits is `Infinity`, which `@IsInt` rejects |
| Pagination.PageRoundedPastExactLimit | src/common/dtos/pagination.dto.ts:11-14 | the page 2^53 + 1 is accepted as page 2^53 |
| Pagination.ParseSigned | src/common/dtos/pagination.dto.ts:12 | after the white space, a number is read only when a digit or a sign comes first, and a negative one only after a minus sign |
| Pagination.ParseMagnitude | src/common/dtos/pagination.dto.ts:12 | an unsigned number is read only when its text starts with a decimal digit |
| Pagination.NumberField | src/common/dtos/pagination.dto.ts:11-26 | an absent field takes its default; a given one is accepted exactly when `parseInt` yields a finite Number of at least 1 (NaN and the infinities fail `@IsInt`), the accepted value is that Number, and below 2^53 it is the integer written |
| Pagination.Validate | src/common/dtos/pagination.dto.ts:5-36 | the `search` transform runs first: a search that `decodeURIComponent` rejects is a 500 whatever the numbers; otherwise the query is a 400 exactly when page or pageSize fails `@IsInt`/`@Min(1)`, and an accepted query has both at least 1, the values `parseInt` read, and the decoded search (default `''`); with nothing given it is page 1, pageSize 10, search `''` |
| Pagination.ValidateRendered | src/common/dtos/pagination.dto.ts:11-35 | any valid query with page and page size below 2^53, written out as decimal text and its search encoded with `encodeURIComponent`, is accepted unchanged |
| Pagination.NonPositivePageRejected | src/common/dtos/pagination.dto.ts:13-14 | a page number below 1 is rejected (400) whatever the page size, for any search `decodeURIComponent` accepts (one it rejects is a 500 first) |
| Pagination.StrayPercentFails | src/common/dtos/pagination.dto.ts:34 | a search for "50%" (what the query parser makes of `50%25`) makes `decodeURIComponent` throw, so the request is a 500 whatever the page values |
| Pagination.DecodeWithoutEscapes | src/common/dtos/pagination.dto.ts:34 | a search without "%" decodes to itself |
| Pagination.DecodeEncode | src/common/dtos/pagination.dto.ts:34 | `decodeURIComponent` undoes `encodeURIComponent` on every string |
| Pagination.DecodeAccepts | src/common/dtos/pagination.dto.ts:34 | "%41" decodes to "A" and "%C3%B1" to "ñ" |
| Pagination.DecodeRejects | src/common/dtos/pagination.dto.ts:34 | a "%" at the end, a "%" before non-hexadecimal digits and a truncated UTF-8 sequence all throw |
| Pagination.DecodeRejectsNonUtf8 | src/common/dtos/pagination.dto.ts:34 | an overlong form of "/" and an encoded surrogate throw |
| Pagination.GuardedSkip | src/modules/rooms/rooms.service.ts:89 | the guarded skip is never negative and equals `(page - 1) * pageSize` for every page of at least 1 |
| Pagination.SkipFormsAgree | src/modules/headquarters/headquarters.service.ts:67 | on a validated query the unguarded skip of the headquarters listing equals the guarded one of the rooms and cameras listings |
| Pagination.TotalPages | src/modules/rooms/rooms.service.ts:97 | the page count is the least `pages` with `pages * pageSize >= total`, and zero exactly when there is nothing to list |
| Pagination.Slice | src/modules/rooms/rooms.service.ts:90-94 | `skip`/`take` returns at most `take` elements, the run starting at `skip`, or nothing past the end, and only elements of the input |
| Pagination.SliceKeepsOrder | src/modules/headquarters/headquarters.service.ts:69-75 | a page of an ordered listing is ordered |
| Pagination.PageEmptyIffPastEnd | src/modules/rooms/rooms.service.ts:88-97 | a page is empty exactly when its number exceeds the page count |
| Pagination.PagesPartition | src/modules/rooms/rooms.service.ts:88-97 | walking the pages from 1 returns every element exactly once and in order |
| Pagination.PagesFromSuffix | src/modules/rooms/rooms.service.ts:88-97 | the pages from a given page on are exactly the elements from that page's skip on |
| Headquarters.CreateOutcome | src/modules/headquarters/headquarters.service.ts:17-45 | creation answers 409 exactly when some headquarter already has the name, and then changes nothing; otherwise it returns 201 with `{id, name, active}` and adds exactly that one headquarter |
| Headquarters.CreateKeepsNamesUnique | src/modules/headquarters/headquarters.service.ts:21-34 | creation keeps headquarter names globally unique |
| Headquarters.Create | src/modules/headquarters/headquarters.service.ts:17-45 | the table update and the response are those of `CreateOutcome` |
| Headquarters.Matching | src/modules/headquarters/headquarters.service.ts:63-69 | the rows are exactly the headquarters whose name matches the search, each as `{id, name, active}` |
| Headquarters.FindAllNotFoundIff | src/modules/headquarters/headquarters.service.ts:81-93 | the listing answers 404 exactly when no headquarter matches the search |
| Headquarters.FindAll | src/modules/headquarters/headquarters.service.ts:59-106 | 404 exactly when no headquarter matches; otherwise a returned 200 with at most `pageSize` rows, each a full view of a headquarter whose name matches the search |
| Headquarters.FindAllPage | src/modules/headquarters/headquarters.service.ts:59-106 | a successful listing returns 200 with at most `pageSize` matching rows ordered by name and a positive total; the page is empty exactly when the page number is past the page count |
| Headquarters.FindAllListing | src/modules/headquarters/headquarters.service.ts:67-106 | a non-empty listing is the unguarded-skip page of the rows ordered by name, with page, pageSize, `ceil(total/pageSize)`, total and search as meta |
| Headquarters.OrderedPage | src/modules/headquarters/headquarters.service.ts:67-86 | the page cut from the ordered rows is ordered, holds only matching rows, and is empty exactly past the last page |
| Headquarters.Active | src/modules/headquarters/headquarters.service.ts:122-129 | the rows are exactly the active headquarters, as `{id, name}` |
| Headquarters.FindActiveExact | src/modules/headquarters/headquarters.service.ts:120-139 | `findActive` returns a headquarter exactly when it is active, only as `{id, name}`, ordered by name ascending |
| Headquarters.FindActive | src/modules/headquarters/headquarters.service.ts:120-139 | a returned 200 whose rows are exactly the active headquarters in some order |
| Headquarters.FindOne | src/modules/headquarters/headquarters.service.ts:153-175 | 404 exactly when the id is unknown; otherwise the one row `{id, name, active}` of that headquarter |
| Headquarters.UpdateOutcome | src/modules/headquarters/headquarters.service.ts:189-238 | 409 exactly when another headquarter holds the name, checked before the 404 for an unknown id; both errors change nothing; a success overwrites name and active of that headquarter only |
| Headquarters.UpdateKeepsNamesUnique | src/modules/headquarters/headquarters.service.ts:193-231 | an update keeps names unique, and saving a headquarter under its own name succeeds |
| Headquarters.Update | src/modules/headquarters/headquarters.service.ts:189-238 | the table update and the response are those of `UpdateOutcome` |
| Headquarters.RemoveOutcome | src/modules/headquarters/headquarters.service.ts:252-284 | 404 exactly for an unknown id; 409 exactly when a room refers to it; both change nothing; otherwise only that headquarter is deleted |
| Headquarters.RemoveKeepsRoomsAttached | src/modules/headquarters/headquarters.service.ts:265-278 | deletion never leaves a room referring to a missing headquarter |
| Headquarters.Remove | src/modules/headquarters/headquarters.service.ts:252-284 | the table update and the response are those of `RemoveOutcome` |
| Listing.GuardedPageFacts | src/modules/rooms/rooms.service.ts:85-97 | the requested page of the name-ordered rows is ordered, holds at most `pageSize` of the rows and only rows, and is empty exactly past the last page |
| Listing.GuardedListing | src/modules/rooms/rooms.service.ts:97-117 | the listing is always thrown; it is 404 exactly when the page lies past `ceil(total/pageSize)`, and otherwise 200 with a non-empty ordered page of at most `pageSize` rows and the meta `{page, pageSize, totalPages, total, search}` |
| Rooms.CreateOutcome | src/modules/rooms/rooms.service.ts:17-65 | 404 exactly when the headquarter is missing or inactive; 409 exactly when that headquarter already has a room of that name; errors change nothing; a success is thrown with 201 and inserts exactly the new room |
| Rooms.CreateKeepsConsistent | src/modules/rooms/rooms.service.ts:33-53 | creation keeps room names unique per headquarter, every room attached to a headquarter and every camera in a room |
| Rooms.Create | src/modules/rooms/rooms.service.ts:17-65 | the table update and the response are those of `CreateOutcome` |
| Rooms.Matching | src/modules/rooms/rooms.service.ts:71-84 | the rows are exactly the rooms whose name matches the search, each with its headquarter's name |
| Rooms.FindAllNotFoundIff | src/modules/rooms/rooms.service.ts:97-104 | the listing is 404 exactly when the page is past the last page of matching rooms, and so always when nothing matches |
| Rooms.FindAll | src/modules/rooms/rooms.service.ts:67-117 | a thrown envelope; 404 exactly when the page is past the last page of the matching rooms; otherwise every listed row is a room whose name matches the search |
| Rooms.FindAllPage | src/modules/rooms/rooms.service.ts:67-117 | a successful listing is thrown with 200 and holds one to `pageSize` matching rooms, ordered by name, each with its headquarter's name |
| Rooms.UpdateOutcome | src/modules/rooms/rooms.service.ts:151-214 | 404 with the headquarter message exactly for a missing or inactive headquarter; then 409 with the duplicate-name message exactly when another room of that headquarter has the name; then 404 with the update message exactly for a missing room; only a success changes the table, overwriting that room |
| Rooms.UpdateKeepsConsistent | src/modules/rooms/rooms.service.ts:167-207 | an update keeps the invariant, and re-saving a room under its own name and headquarter succeeds |
| Rooms.Update | src/modules/rooms/rooms.service.ts:151-214 | the table update and the response are those of `UpdateOutcome` |
| Rooms.RemoveOutcome | src/modules/rooms/rooms.service.ts:221-269 | 404 exactly for an unknown room; 409 exactly when a camera or a current service refers to it; only a success changes the table, deleting that room |
| Rooms.RemoveKeepsConsistent | src/modules/rooms/rooms.service.ts:235-262 | removal keeps the invariant and leaves no current service pointing at a missing room |
| Rooms.Remove | src/modules/rooms/rooms.service.ts:221-269 | the table update and the response are those of `RemoveOutcome` |
| Duplicates.IndexOf | src/modules/cameras/cameras.service.ts:119 | `indexOf` gives -1 exactly for an absent value, and otherwise the first position holding it |
| Duplicates.KeptIffSeenBefore | src/modules/cameras/cameras.service.ts:119 | the filter keeps a position exactly when its value occurs at an earlier position |
| Duplicates.RepeatsStep | src/modules/cameras/cameras.service.ts:119 | one more position extends the filter's result by that value exactly when it was seen before |
| Duplicates.DistinctSnoc | src/modules/cameras/cameras.service.ts:119-121 | appending a value keeps a list free of repeats exactly when the value is new |
| Duplicates.RepeatsUpToEmptyIff | src/modules/cameras/cameras.service.ts:119-121 | the filter over a prefix is empty exactly when the prefix has no repeat |
| Duplicates.RepeatsEmptyIff | src/modules/cameras/cameras.service.ts:118-132 | the duplicate list is empty exactly when the names (or orders) are pairwise distinct |
| Duplicates.CountSnoc | src/modules/cameras/cameras.service.ts:119 | one step of the count: the repeats gain one occurrence of a value exactly when it had been seen |
| Duplicates.RepeatsUpToCount | src/modules/cameras/cameras.service.ts:119 | over a prefix, each value occurs in the filter once less often than in the prefix |
| Duplicates.RepeatsCount | src/modules/cameras/cameras.service.ts:119-130 | the duplicate list holds every occurrence after the first: each value appears in it once less often than in the input |
| Cameras.MovementProblem | src/modules/cameras/cameras.service.ts:116-137 | the PTZ list is refused (with a non-empty message naming the repeats, names before orders) exactly when its names or its orders repeat |
| Cameras.AddMovements | src/modules/cameras/cameras.service.ts:139-150 | the movement table gains exactly the new ids, keeps every other row, and with distinct ids the i-th new row is the i-th input attached to the camera |
| Cameras.DropRowsOf | src/modules/cameras/cameras.service.ts:471-473 | `deleteMany({where: {cameraId}})` on the movements or the stream rows keeps exactly the rows of other cameras, unchanged |
| Cameras.AddKeepsDistinct | src/modules/cameras/cameras.service.ts:116-150 | inserting a repeat-free PTZ list for a camera with no movements keeps each camera's movements distinct in name and order |
| Cameras.CreateOutcome | src/modules/cameras/cameras.service.ts:23-158 | every outcome is thrown; 404 exactly for a missing or inactive room, 409 exactly when the room already has a camera, and 500 when no credentials are given, all three changing nothing; 400 exactly when the PTZ list repeats a name or order, after the camera and credentials rows are committed and with no movement; on success 201 with the new camera and exactly one movement per input entry |
| Cameras.CreateKeepsInvariants | src/modules/cameras/cameras.service.ts:46-150 | creation never gives a room a second camera, and keeps every movement attached to a camera and distinct from its siblings |
| Cameras.InstallKeepsOneCamera | src/modules/cameras/cameras.service.ts:46-114 | placing the new camera in a room with no camera keeps one camera per room |
| Cameras.InsertMovements | src/modules/cameras/cameras.service.ts:139-150 | the per-movement inserts leave the movement table that `AddMovements` describes and change no other table |
| Cameras.Create | src/modules/cameras/cameras.service.ts:23-167 | the table update and the response are those of `CreateOutcome` |
| Cameras.Matching | src/modules/cameras/cameras.service.ts:173-219 | the rows are exactly the cameras whose name matches the search, each formatted with its room and headquarter names (`|| null`) |
| Cameras.FindAllPage | src/modules/cameras/cameras.service.ts:169-232 | the listing is 404 exactly when the page is past the last page of matches; otherwise a thrown 200 with one to `pageSize` matching cameras ordered by name |
| Cameras.FindAll | src/modules/cameras/cameras.service.ts:169-232 | a thrown envelope; 404 exactly when the page is past the last page of the matching cameras; otherwise every listed row is a camera whose name matches the search |
| Cameras.FindAllCountsEveryMatch | src/modules/cameras/cameras.service.ts:173-201 | every camera whose name matches the search is among the listed rows |
| Cameras.MergedAuth | src/modules/cameras/cameras.service.ts:404-412 | spreading the new credentials over the stored ones keeps the stored image-preview end point when none is given |
| Cameras.UpdateOutcome | src/modules/cameras/cameras.service.ts:366-494 | every outcome is thrown; 404 exactly for a missing camera or a given room that is missing or inactive; 500 exactly when the room id is absent or the credentials row cannot be found; both change nothing; past those checks, a PTZ list with a repeated name or order is a 400 exactly when the movements are wanted, after the camera is saved and keeping the old movements; success exactly otherwise, with absent fields keeping their values and a wanted list replacing every movement |
| Cameras.AddKeepsReferences | src/modules/cameras/cameras.service.ts:475-486 | movements inserted for an existing camera refer to an existing camera |
| Cameras.ReplacedKeepsMovements | src/modules/cameras/cameras.service.ts:470-486 | deleting a camera's movements and inserting a repeat-free list keeps every movement attached and distinct |
| Cameras.UpdateKeepsMovements | src/modules/cameras/cameras.service.ts:447-486 | every update keeps the movements attached to cameras and distinct per camera |
| Cameras.RevisionKeepsMovements | src/modules/cameras/cameras.service.ts:401-486 | the same, in the case where the camera row is written |
| Cameras.UpdateMayShareRoom | src/modules/cameras/cameras.service.ts:383-422 | unlike creation, an update can move a camera into a room that already holds one |
| Cameras.Update | src/modules/cameras/cameras.service.ts:366-500 | the table update and the response are those of `UpdateOutcome` |
| Cameras.RemoveOutcome | src/modules/cameras/cameras.service.ts:502-555 | 404 exactly for an unknown camera, 409 exactly while a current stream row exists, 500 when its credentials row is gone; none of these changes anything; otherwise the camera's movements, all its stream rows, the camera and its credentials are deleted |
| Cameras.RemoveKeepsInvariants | src/modules/cameras/cameras.service.ts:529-548 | removal leaves no movement or stream row pointing at a missing camera and keeps one camera per room |
| Cameras.Remove | src/modules/cameras/cameras.service.ts:502-560 | the table update and the response are those of `RemoveOutcome` |
| Cameras.FirstCurrent | src/modules/cameras/cameras.service.ts:575-580 | the row found is a current stream row of the camera; none is found only when the camera has no current row |
| Cameras.CameraFailAsWritten | src/modules/cameras/cameras.service.ts:562-619 | as written, a success requires a stream row whose own id is the camera's id |
| Cameras.CameraFail | src/modules/cameras/cameras.service.ts:562-619 | 404 exactly when the camera is missing or has no current stream row, changing nothing; otherwise that row is marked FAIL with the message and exactly one mail is appended |
| Cameras.CameraFailMarksStream | src/modules/cameras/cameras.service.ts:589-614 | a failure reported for a streaming camera always leaves one of its rows FAIL with the message, and one mail more |
| Cameras.CameraFailMissesRow | src/modules/cameras/cameras.service.ts:589-597 | a camera streaming on a row whose id differs from the camera's gets a 500 and no mail as written, and a 200 with the row marked FAIL as intended |
| Cameras.CameraFailReport | src/modules/cameras/cameras.service.ts:562-619 | the table update and the response are those of `CameraFail` |
| Services.OverlapsSymmetric | src/modules/services/services.service.ts:35-43 | whether two bookings conflict does not depend on which one is stored and which one is requested |
| Services.BackToBackAccepted | src/modules/services/services.service.ts:38-41 | a booking that starts exactly when another in the same room ends does not conflict with it |
| Services.OverlapsIffSharedInstant | src/modules/services/services.service.ts:35-43 | for windows with `startAt < endAt`, the conflict filter holds exactly when some instant lies in both half-open windows |
| Services.FirstCameraIn | src/modules/services/services.service.ts:58-61 | the camera found is in the room; none is found exactly when the room has no camera |
| Services.CreateOutcome | src/modules/services/services.service.ts:18-100 | 404 exactly for a missing or inactive room and 409 for an overlapping booking, both before any write; otherwise the service row is inserted (not current); with streaming and no camera in the room the answer is a 409 with the row already written; with a camera, exactly one stream row for a camera of the room is added with the playlist `/live/{cameraId}/stream.m3u8`, and the envelope carries the one-time password |
| Services.CreateKeepsNoOverlap | src/modules/services/services.service.ts:35-54 | a booking accepted by `create` keeps the bookings of every room pairwise non-overlapping |
| Services.CreateAsWritten | src/modules/services/services.service.ts:94-100 | as written, a successful booking without streaming builds its envelope but answers with no body, with the same table effects |
| Services.CreateDropsEnvelope | src/modules/services/services.service.ts:52-100 | on a concrete booking without streaming the row is written but the caller gets no envelope, where the intended answer is a 201 with the row |
| Services.UpdateOutcome | src/modules/services/services.service.ts:192-289 | 404 exactly for a missing service or a missing or inactive room; 409 for a booking overlapping any other service (its own id excluded); those errors change nothing; otherwise the row is overwritten (keeping `current`), and with streaming a fresh stream row is added for a camera of the room or a 409 is answered after the write |
| Services.UpdateKeepsNoOverlap | src/modules/services/services.service.ts:222-243 | an accepted update keeps the bookings free of overlaps, and re-saving a service's own window never conflicts with itself |
| Services.UpdateAddsStreamEachTime | src/modules/services/services.service.ts:246-270 | every successful streaming update adds one more stream row |
| Services.UpdateAsWritten | src/modules/services/services.service.ts:272-289 | as written, neither success envelope is returned, so every successful update answers with no body, with the same table effects |
| Services.UpdateDropsPassword | src/modules/services/services.service.ts:261-289 | on a concrete streaming update the stream row is written but the caller never sees the one-time password |
| Services.FindConflict | src/modules/services/services.service.ts:222-231 | the scan of the services in database order finds a conflict exactly when some service other than the excluded one overlaps the booking |
| Services.FindCamera | src/modules/services/services.service.ts:58-61 | the scan returns the first camera of the room in scan order, as `FirstCameraIn` describes |
| Services.Create | src/modules/services/services.service.ts:18-100 | the table update and the response are those of `CreateOutcome` |
| Services.Update | src/modules/services/services.service.ts:192-289 | the table update and the response are those of `UpdateOutcome` |
| Streamings.MovementIdsOf | src/modules/Streamings/streamings.service.ts:26-45 | a camera's movements are exactly the scanned movements attached to that camera |
| Streamings.RoomMovementIds | src/modules/Streamings/streamings.service.ts:24-46 | the `flatMap` collects exactly the movements of the cameras placed in the service's room |
| Streamings.MovementIdsOfDistinct | src/modules/Streamings/streamings.service.ts:43-45 | each movement is collected at most once for its camera |
| Streamings.RoomMovementIdsDistinct | src/modules/Streamings/streamings.service.ts:43-46 | each movement is collected at most once for the whole room |
| Streamings.Rank | src/modules/Streamings/streamings.service.ts:45 | each collected movement becomes `{id, name, order}`, position by position |
| Streamings.Project | src/modules/Streamings/streamings.service.ts:48 | the answer keeps only `{id, name}` of each entry, in the same order |
| Streamings.GetPTZs | src/modules/Streamings/streamings.service.ts:18-58 | every outcome is thrown; 404 exactly for an unknown service, 500 exactly when its room row is missing; otherwise a 200 whose single datum is the projected, order-sorted list of the room's movements |
| Streamings.GetPTZsOrdered | src/modules/Streamings/streamings.service.ts:43-48 | the list is sorted ascending by `order`, is a permutation of what was collected with ties kept in collection order, holds each movement of each camera of the room exactly once and nothing else |
| Streamings.CollectedFacts | src/modules/Streamings/streamings.service.ts:43-46 | before sorting, the collected entries are exactly the room's movements, each once |
| Streamings.PermutationKeepsDistinct | src/modules/Streamings/streamings.service.ts:47 | reordering does not make two entries share an id |
| Streamings.PtzUrl | src/modules/Streamings/streamings.service.ts:85-86 | the target URL is the literal concatenation `http://user:password@ip:port` plus the end point, with nothing percent-encoded |
| Streamings.TargetOf | src/modules/Streamings/streamings.service.ts:64-85 | a movement has a target exactly when its camera and that camera's credentials row exist |
| Streamings.ExecPTZAsWritten | src/modules/Streamings/streamings.service.ts:61-114 | as written, no outcome is ever a success: a movement that ran is reported as a 500 |
| Streamings.ExecPTZ | src/modules/Streamings/streamings.service.ts:61-114 | 404 exactly for an unknown movement; 408 exactly when the PUT failed with error code `ETIMEDOUT`; 200 exactly when it succeeded; any other failure, the request time-out (`ECONNABORTED`) included, is a 500 |
| Streamings.ExecPTZSuccessLost | src/modules/Streamings/streamings.service.ts:88-108 | a PUT that succeeded is a 500 as written and a 200 as intended; otherwise the two agree |
| Streamings.SplitAt | src/modules/Streamings/streamings.service.ts:86 | splitting at the first occurrence of a character gives the part before it, free of it, and the rest |
| Streamings.SplitAtJoin | src/modules/Streamings/streamings.service.ts:86 | splitting `a + c + b` at `c`, when `a` has no `c`, gives back `a` and `b` |
| Streamings.SplitBeforeJoin | src/modules/Streamings/streamings.service.ts:86 | splitting before the end point's leading `/` gives back the port and the end point |
| Streamings.ParsePtzUrl | src/modules/Streamings/streamings.service.ts:86 | the URL determines its five parts when the user name has no `:`, the password no `@`, the address no `:`, the port no `/`, and the end point is a path |
| Streamings.PtzUrlAmbiguous | src/modules/Streamings/streamings.service.ts:86 | an `@` in the password makes two different targets share one URL, which section 3.2.1 of RFC 3986 percent-encoding would prevent |
| Worker.Lit | src/modules/backgroundWorkerServices/backgroundworkerStraming.service.ts:79-91 | the per-camera `updateMany` calls keep the set of stream rows; exactly the rows of the hit cameras get the phase's status and `current` |
| Worker.Flip | src/modules/backgroundWorkerServices/backgroundworkerStraming.service.ts:73-77 | the per-service `update` calls keep the set of services and set `current` to the phase's value on exactly the selected bookings among those visited |
| Worker.Apply | src/modules/backgroundWorkerServices/backgroundworkerStraming.service.ts:71-95 | a phase's transaction changes only the services and the stream rows, and keeps the set of services |
| Worker.Tick | src/modules/backgroundWorkerServices/backgroundworkerStraming.service.ts:20-42 | a failing activation mails one alert and commits nothing; a failing deactivation mails one alert and keeps the activation; the mail log only grows, by one mail at most; cameras and rooms never change |
| Worker.ActivationSelects | src/modules/backgroundWorkerServices/backgroundworkerStraming.service.ts:47-57 | activation switches on exactly the streaming bookings whose window holds `now`, both ends included, and changes nothing else in them |
| Worker.DeactivationSelects | src/modules/backgroundWorkerServices/backgroundworkerStraming.service.ts:101-108 | deactivation switches off exactly the current streaming bookings whose window has ended, and changes nothing else in them |
| Worker.PhaseRows | src/modules/backgroundWorkerServices/backgroundworkerStraming.service.ts:79-91 | a phase puts every stream row of every camera in the room of a selected booking to its status and `current`, and leaves every other row as it was |
| Worker.ServiceAfterTick | src/modules/backgroundWorkerServices/backgroundworkerStraming.service.ts:20-23 | after a completed tick a booking is current exactly as its window and streaming flag dictate at `now`, with nothing else changed in it |
| Worker.NonStreamingUntouched | src/modules/backgroundWorkerServices/backgroundworkerStraming.service.ts:55-106 | bookings without streaming are never touched by the tick, whether or not a phase fails |
| Worker.NoStaleCurrent | src/modules/backgroundWorkerServices/backgroundworkerStraming.service.ts:98-146 | after a completed tick no streaming booking whose window has ended is still current |
| Worker.OnAndOffInOneTick | src/modules/backgroundWorkerServices/backgroundworkerStraming.service.ts:47-108 | a streaming booking whose window ends exactly at `now` is switched on and then off in the same tick, its room's rows ending OFFLINE |
| Worker.BackToBackLeavesOffline | src/modules/backgroundWorkerServices/backgroundworkerStraming.service.ts:44-146 | when one booking of a room ends and the next starts between two ticks, the next is switched on but the room's rows end OFFLINE, because deactivation runs second |
| Worker.RowAfterTick | src/modules/backgroundWorkerServices/backgroundworkerStraming.service.ts:79-142 | a stream row ends OFFLINE when its camera's room holds a booking switched off this tick, ONLINE when it only holds one switched on, and is otherwise untouched |
| Worker.TickIdempotent | src/modules/backgroundWorkerServices/backgroundworkerStraming.service.ts:20-23 | a second completed tick at the same instant changes nothing |
| Worker.ServicesAgain | src/modules/backgroundWorkerServices/backgroundworkerStraming.service.ts:20-23 | a second tick at the same instant leaves the services as the first left them |
| Worker.RowsAgain | src/modules/backgroundWorkerServices/backgroundworkerStraming.service.ts:20-23 | a second tick at the same instant leaves the stream rows as the first left them |
| Worker.SelectedAgain | src/modules/backgroundWorkerServices/backgroundworkerStraming.service.ts:47-108 | every booking a second tick at the same instant selects is one the first switched on and off |
| Worker.RowAgain | src/modules/backgroundWorkerServices/backgroundworkerStraming.service.ts:79-142 | the second tick writes to a stream row only what the first left there |
| Worker.SecondTickCompletes | src/modules/backgroundWorkerServices/backgroundworkerStraming.service.ts:20-23 | a tick that completes is followed, at the same instant, by a tick that completes |
| Worker.LitTwice | src/modules/backgroundWorkerServices/backgroundworkerStraming.service.ts:79-91 | updating two sets of cameras' rows with the same values is updating their union |
| Worker.UpdateRoomRows | src/modules/backgroundWorkerServices/backgroundworkerStraming.service.ts:79-91 | one `updateMany` per camera of the room, in scan order, gives the rows of exactly that room's cameras the phase's values |
| Worker.Visit | src/modules/backgroundWorkerServices/backgroundworkerStraming.service.ts:73-91 | one selected service inside the transaction: it is flipped and its room's camera rows updated |
| Worker.AllVisited | src/modules/backgroundWorkerServices/backgroundworkerStraming.service.ts:72-94 | a scan of all selected services visits each, so the transaction flips every selected booking and updates every selected room |
| Worker.Transact | src/modules/backgroundWorkerServices/backgroundworkerStraming.service.ts:71-95 | the transaction body reports a missing room exactly when a selected booking's room is gone, and otherwise leaves the services and rows of `Apply` |
| Worker.RunPhase | src/modules/backgroundWorkerServices/backgroundworkerStraming.service.ts:44-146 | a phase either fails with the failure of its selection and commits nothing, or commits exactly what `Apply` describes |
| Worker.HandleCron | src/modules/backgroundWorkerServices/backgroundworkerStraming.service.ts:20-42 | the database after one run of the interval is the tick of the one before |
| Artifacts.ScriptLines | src/modules/camerasOnline/camerasOnline.service.ts:21-47 | the generated script has the template's 27 lines, the ffmpeg line tenth, between a nine-line preamble and a seventeen-line trailer |
| Artifacts.UnitLines | src/modules/camerasOnline/camerasOnline.service.ts:49-58 | the generated systemd unit has the template's 10 lines |
| Artifacts.LastStop | src/modules/camerasOnline/camerasOnline.service.ts:95 | the greedy `(.*) \\` scan answers a position where " \\" occurs, at or after where it started, or the best one found so far |
| Artifacts.MatchAt | src/modules/camerasOnline/camerasOnline.service.ts:95 | a match starting at a position begins with "ffmpeg -i " and ends within the text, after room for " \\" |
| Artifacts.FirstMatch | src/modules/camerasOnline/camerasOnline.service.ts:95-96 | the leftmost match start: no earlier position starts a match, and none is found exactly when no position from there on does |
| Artifacts.ReplaceUrl | src/modules/camerasOnline/camerasOnline.service.ts:95-96 | without a match the text is unchanged; otherwise exactly the leftmost match is replaced by "ffmpeg -i {url} \\" and the text around it kept |
| Artifacts.ReplaceUrlLine | src/modules/camerasOnline/camerasOnline.service.ts:95-96 | on joined lines whose first "ffmpeg -i" opens an indented line ending in " \\", the substitution rewrites that line alone, whatever its old argument |
| Artifacts.UpdateRewritesUrlLine | src/modules/camerasOnline/camerasOnline.service.ts:21-96 | substituting the URL in a generated script changes only its ffmpeg line, which gets the new URL unquoted; the failure notice still names the old URL |
| Artifacts.RemoveEntry | src/modules/camerasOnline/camerasOnline.service.ts:216-218 | one listed entry is removed with `rmdir` when the listing marked it a directory, with `unlink` otherwise |
| Artifacts.ClearDirectoryContents | src/modules/camerasOnline/camerasOnline.service.ts:210-223 | the directory is listed, then its entries removed one after the other, the first failure ending the run with the state it left |
| Artifacts.EntriesRemoved | src/modules/camerasOnline/camerasOnline.service.ts:216-219 | removing distinct listed children of a directory never fails and removes exactly those entries, with the contents of the directories among them |
| Artifacts.ClearEmptiesDirectory | src/modules/camerasOnline/camerasOnline.service.ts:210-223 | clearing an existing directory removes every entry in it, keeps the directory and everything outside it, and runs no command |
| Artifacts.Failure | src/modules/camerasOnline/camerasOnline.service.ts:81-87 | every catch answers a thrown 500 whose message is the operation's prefix followed by the error's message |
| Artifacts.Install | src/modules/camerasOnline/camerasOnline.service.ts:60-72 | the shared file work of `create`: base directories made sure of, an existing script refused, then script, permission, live directory and unit in order up to the first failure |
| Artifacts.Rewrite | src/modules/camerasOnline/camerasOnline.service.ts:93-98 | read the script, substitute the URL, write it back, stopping at the first failure |
| Artifacts.Uninstall | src/modules/camerasOnline/camerasOnline.service.ts:131-134 | unlink the script, remove the live directory recursively, unlink the unit, stopping at the first failure |
| Artifacts.InstallStep | src/modules/camerasOnline/camerasOnline.service.ts:60-72 | the file work of `create` runs no command; an existing script is refused with "Script … already exists" once the base directories are made sure of |
| Artifacts.RewriteStep | src/modules/camerasOnline/camerasOnline.service.ts:93-98 | the rewrite of `update` succeeds exactly when the script is a file and not a directory, runs no command, and a failure changes nothing |
| Artifacts.UninstallStep | src/modules/camerasOnline/camerasOnline.service.ts:131-134 | the file work of `remove` succeeds exactly when the script and unit are files and the live directory exists, and runs no command |
| Artifacts.CreateOutcome | src/modules/camerasOnline/camerasOnline.service.ts:16-89 | an existing script is a 500; a success is a returned 201 and adds `daemon-reload` to the command log; any failure is a 500 with no command run |
| Artifacts.UpdateOutcome | src/modules/camerasOnline/camerasOnline.service.ts:91-124 | success exactly when the script is a readable, writable file: a returned 200 after `is-active` and then a restart or a reload; otherwise a 500 with the host unchanged |
| Artifacts.RemoveOutcome | src/modules/camerasOnline/camerasOnline.service.ts:126-152 | success exactly when the script, the live directory and the unit are all there: a returned 200 after `systemctl stop` and `daemon-reload`; otherwise a 500 with no command run |
| Artifacts.SwitchOutcome | src/modules/camerasOnline/camerasOnline.service.ts:154-219 | without a live directory `up` and `down` are a 500 changing nothing; they end without a body exactly after running their command, and any failure runs none |
| Artifacts.CreateCameraOnlineService | src/modules/camerasOnline/camerasOnline.service.ts:16-89 | the host after the call and the reply are those of the `create` outcome |
| Artifacts.UpdateCameraOnlineScript | src/modules/camerasOnline/camerasOnline.service.ts:91-124 | the host after the call and the reply are those of the `update` outcome, restarting exactly when the unit reports itself active |
| Artifacts.RemoveCameraOnlineService | src/modules/camerasOnline/camerasOnline.service.ts:126-152 | the host after the call and the reply are those of the `remove` outcome |
| Artifacts.UpCameraOnlineService | src/modules/camerasOnline/camerasOnline.service.ts:154-181 | the live directory is cleared, then `systemctl start` runs; the caller gets no value, and a failure is a thrown 500 |
| Artifacts.DownCameraOnlineService | src/modules/camerasOnline/camerasOnline.service.ts:183-208 | the live directory is cleared, then `systemctl stop` runs; the caller gets no value, and a failure is a thrown 500 |
| Artifacts.PathsApart | src/modules/camerasOnline/camerasOnline.service.ts:8-19 | a camera's script, live directory and unit are three different paths, none of them a base directory, and neither file lies inside the live directory |
| Artifacts.InstallRefusesExistingScript | src/modules/camerasOnline/camerasOnline.service.ts:61-67 | when the script path is taken, `create` fails with "Script … already exists" after only making sure of the base directories |
| Artifacts.InstallWrites | src/modules/camerasOnline/camerasOnline.service.ts:61-72 | with nothing in the way, `create` writes the executable script and the unit, makes the live directory and base directories, and nothing else |
| Artifacts.InstallKeepsScriptOnFailure | src/modules/camerasOnline/camerasOnline.service.ts:69-72 | a file in the way of the live directory fails `create` after the executable script was written, and the script stays |
| Artifacts.CreateRefusesExistingScript | src/modules/camerasOnline/camerasOnline.service.ts:60-87 | an existing script makes `create` answer a 500 naming it, with only the base directories added |
| Artifacts.CreateInstalls | src/modules/camerasOnline/camerasOnline.service.ts:60-80 | with nothing in the way, `create` returns a 201 success, writes both files and the live directory, and runs `systemctl daemon-reload` |
| Artifacts.UpdateMissingScript | src/modules/camerasOnline/camerasOnline.service.ts:94-122 | `update` of a camera without a script answers a 500 for the failed read and changes nothing |
| Artifacts.UpdateRewritesScript | src/modules/camerasOnline/camerasOnline.service.ts:93-115 | `update` of an existing script returns a 200 success, substitutes the URL keeping the permission bit, asks `is-active`, then restarts or reloads |
| Artifacts.CreateThenUpdate | src/modules/camerasOnline/camerasOnline.service.ts:21-98 | after `create` and then `update`, the script runs ffmpeg on the new URL, unquoted, while its failure notice still names the original URL |
| Artifacts.UninstallDeletes | src/modules/camerasOnline/camerasOnline.service.ts:131-134 | with the three artifacts in place, `remove` deletes the script, the live directory with its contents and the unit, and nothing else |
| Artifacts.RemoveDeletes | src/modules/camerasOnline/camerasOnline.service.ts:126-143 | ... and then returns a 200 success after `systemctl stop` and `systemctl daemon-reload` |
| Artifacts.RemoveStopsAtFirstFailure | src/modules/camerasOnline/camerasOnline.service.ts:131-151 | a missing script fails `remove` with nothing changed; a missing live directory fails it with only the script gone; no command runs in either case |
| Artifacts.InstallThenUninstall | src/modules/camerasOnline/camerasOnline.service.ts:61-134 | on a host with none of the camera's artifacts, the file work of `remove` undoes that of `create`, but for the base directories |
| Artifacts.CreateThenRemove | src/modules/camerasOnline/camerasOnline.service.ts:60-143 | `create` then `remove` both succeed and leave the files and directories as before, base directories aside, having reloaded, stopped and reloaded |
| Artifacts.SwitchEmptiesLiveDirectory | src/modules/camerasOnline/camerasOnline.service.ts:154-219 | `up` and `down` on an existing live directory empty it, keep it and everything outside it, run their command and give no value |
| Artifacts.SwitchNeedsLiveDirectory | src/modules/camerasOnline/camerasOnline.service.ts:170-213 | without a live directory `up` and `down` answer a thrown 500 and change nothing, no command included |
| Artifacts.InactiveRestartsAsWritten | src/modules/camerasOnline/camerasOnline.service.ts:101-109 | the `includes('active')` test as written also holds for the output "inactive", so `update` then restarts a stopped unit |
| Artifacts.UpdateRestartsOnlyActive | src/modules/camerasOnline/camerasOnline.service.ts:101-109 | with the corrected test, `update` restarts exactly when `is-active` prints "active" and otherwise reloads; whenever it restarts, the written test would too |
| LegacyArtifacts.LegacyScriptLines | src/modules/cameras/utils/camerasUtils.service.ts:21-44 | the older script has the template's 24 lines, the ffmpeg line eighth, between a seven-line preamble and a sixteen-line trailer |
| LegacyArtifacts.LegacyUpdateRewritesUrlLine | src/modules/cameras/utils/camerasUtils.service.ts:21-93 | substituting the URL in an older script changes only its ffmpeg line; the failure notice still names the old URL |
| LegacyArtifacts.LegacyCreateCameraOnlineService | src/modules/cameras/utils/camerasUtils.service.ts:16-86 | the host after the call and the reply are those of the older `create` outcome |
| LegacyArtifacts.LegacyUpdateCameraOnlineScript | src/modules/cameras/utils/camerasUtils.service.ts:88-110 | the host after the call and the reply are those of the older `update` outcome |
| LegacyArtifacts.LegacyRemoveCameraOnlineService | src/modules/cameras/utils/camerasUtils.service.ts:112-137 | the host after the call and the reply are those of the older `remove` outcome |
| LegacyArtifacts.LegacyAlwaysThrows | src/modules/cameras/utils/camerasUtils.service.ts:74-136 | every reply of the three operations is thrown: successes with their own status and `ok` set, failures with 500 |
| LegacyArtifacts.LegacyCreateOutcome | src/modules/cameras/utils/camerasUtils.service.ts:16-86 | always thrown; an existing script is a 500; a success is a 201 after `systemctl stop` and `daemon-reload`; any failure is a 500 with no command run |
| LegacyArtifacts.LegacyUpdateOutcome | src/modules/cameras/utils/camerasUtils.service.ts:88-110 | always thrown; success exactly when the script is a file and not a directory, a 200 after `daemon-reload` alone; otherwise a 500 with the host unchanged |
| LegacyArtifacts.LegacyRemoveOutcome | src/modules/cameras/utils/camerasUtils.service.ts:112-137 | always thrown; success exactly when the script, live directory and unit are there, a 200 after `systemctl stop` and `daemon-reload`; otherwise a 500 with no command run |
| LegacyArtifacts.LegacyCreateRefusesExistingScript | src/modules/cameras/utils/camerasUtils.service.ts:57-85 | an existing script makes `create` answer a 500 naming it, with only the base directories added |
| LegacyArtifacts.LegacyCreateStopsThenReloads | src/modules/cameras/utils/camerasUtils.service.ts:57-78 | with nothing in the way, `create` writes both files and the live directory, runs `systemctl stop` then `daemon-reload`, and throws a 201 success |
| LegacyArtifacts.LegacyUpdateMissingScript | src/modules/cameras/utils/camerasUtils.service.ts:91-108 | `update` without a script answers a 500 for the failed read and changes nothing |
| LegacyArtifacts.LegacyUpdateOnlyReloads | src/modules/cameras/utils/camerasUtils.service.ts:88-102 | `update` of an existing script substitutes the URL and only reloads systemd, never restarting the unit, and throws a 200 success |
| LegacyArtifacts.LegacyCreateThenUpdate | src/modules/cameras/utils/camerasUtils.service.ts:21-95 | after `create` and then `update`, the older script runs ffmpeg on the new URL and is otherwise as created |
| LegacyArtifacts.LegacyRemoveDeletes | src/modules/cameras/utils/camerasUtils.service.ts:112-129 | with the three artifacts in place, `remove` deletes them, stops the unit, reloads systemd and throws a 200 success |
| LegacyArtifacts.LegacyCreateThenRemove | src/modules/cameras/utils/camerasUtils.service.ts:57-129 | `create` then `remove` both succeed and leave the files and directories as before, base directories aside |
| FileSystem.Host.EnsureDirectoryExists | src/modules/camerasOnline/camerasOnline.service.ts:61-63 | afterwards the directory is there, and nothing else changes |
| FileSystem.Host.ExecCommand | src/modules/camerasOnline/camerasOnline.service.ts:74 | the command is appended to the host's command log, and nothing else changes |
| FileSystem.Host.Stat | src/modules/camerasOnline/camerasOnline.service.ts:65 | answers whether a file or a directory exists at the path, changing nothing |
| FileSystem.Host.WriteFile | src/modules/camerasOnline/camerasOnline.service.ts:69 | writing over a directory fails with EISDIR and changes nothing; otherwise the file holds the content, keeping its permission bit, a new file not executable |
| FileSystem.Host.Chmod | src/modules/camerasOnline/camerasOnline.service.ts:70 | a file becomes executable, a directory is left as it is, and a missing path fails with ENOENT |
| FileSystem.Host.Mkdir | src/modules/camerasOnline/camerasOnline.service.ts:71 | the recursive `mkdir` succeeds on an existing directory and fails with EEXIST on a file in the way |
| FileSystem.Host.Unlink | src/modules/camerasOnline/camerasOnline.service.ts:132 | only a file is removed; a directory fails with EISDIR and a missing path with ENOENT, changing nothing |
| FileSystem.Host.RemoveTree | src/modules/camerasOnline/camerasOnline.service.ts:133 | the recursive `rm` removes the path and everything inside it, and fails with ENOENT on a missing path |
| FileSystem.Host.ReadFile | src/modules/camerasOnline/camerasOnline.service.ts:94 | a file's content is read; a directory fails with EISDIR and a missing path with ENOENT |
| FileSystem.Host.Readdir | src/modules/camerasOnline/camerasOnline.service.ts:213 | listing fails with ENOTDIR on a file and ENOENT on a missing path, and succeeds on a directory, changing nothing |
| Sorting.Insert | src/modules/Streamings/streamings.service.ts:47 | inserting into a sequence adds exactly that element, as a multiset |
| Sorting.SortBy | src/modules/Streamings/streamings.service.ts:47 | sorting gives a permutation of its input |
| Sorting.InsertSorted | src/modules/Streamings/streamings.service.ts:47 | inserting into a sequence sorted by a strict total order keeps it sorted |
| Sorting.InsertWithKey | src/modules/Streamings/streamings.service.ts:47 | insertion puts the new element before every element with the same key; inserting front to back therefore keeps equal keys in input order |
| Sorting.SortByCorrect | src/modules/Streamings/streamings.service.ts:47 | for a strict total order the sort is ordered, a permutation and stable: the elements with each key come out in input order |
| Sorting.LexLessStrictTotal | src/modules/headquarters/headquarters.service.ts:75-77 | the code-point order of names used for `orderBy: { name: 'asc' }` is a strict total order |
| Sorting.IntLessStrictTotal | src/modules/Streamings/streamings.service.ts:47 | the comparison `a.order - b.order` orders integers strictly and totally |
| Text.LowerChar | src/modules/headquarters/headquarters.service.ts:63-64 | the ASCII capitals and the Latin-1 capitals U+00C0..U+00DE (not U+00D7) go to the letter 32 code points on; every other character is kept; no result is such a capital |
| Text.Lower | src/modules/headquarters/headquarters.service.ts:63-64 | the lower-cased search text has the same length, each character lower-cased |
| Text.LowerIdempotent | src/modules/headquarters/headquarters.service.ts:63-64 | lower-casing twice is lower-casing once |
| Text.NatToString | src/modules/cameras/cameras.service.ts:85-86 | the decimal rendering of a natural number is a non-empty string of digits without a leading zero |
| Text.IntToString | src/modules/cameras/cameras.service.ts:85-86 | the decimal rendering of an integer is non-empty and starts with a minus exactly when it is negative |

## Left out

- Mail: the HTML templates and SMTP sending of src/modules/mail/mail.service.ts are not part of this model. An alert mail is an entry appended to a log.
- The timezone module (src/modules/Time/time.service.ts) is not part of this model. Times are integers.
- `generateOTP` and bcrypt: random and library calls. The one-time password and its hash are parameters of `Services.Create` and `Services.Update`.
- `execCommand` and `ensureDirectoryExists`: their definitions are not part of this model. They are modelled as never failing. `execCommand` appends the command to the host's log, and `ensureDirectoryExists` adds the directory.
- Outbound HTTP:
  - The camera image preview and its base64 encoding are not modelled.
  - The PTZ `PUT` is a `PutResult` parameter: done, failed with error code `ETIMEDOUT`, or another failure.
- The generated script's runtime behaviour (ffmpeg, the retry loop, the curl call) is not modelled. Only its text is.
- Prisma: tables are maps keyed by id, and each `$transaction` is all-or-nothing. Query-engine errors other than those the services provoke are not modelled.
- Concurrency and timing:
  - The `@Interval(5000)` timer is not modelled; `Worker.HandleCron` is one tick.
  - `Promise.all` is read as "each in turn", so interleavings of concurrent requests are not modelled.
- The worker's commented-out calls to the artifact generator are not wired into the tick, because the source disables them. The same goes for the camera CRUD.
- Artifacts.ReplaceUrl: the replacement text is taken literally. JavaScript's `$&`, `$1` and `$$` patterns in a new URL are not interpreted.
- Controllers, `*.module.ts` files and bootstrap: routing and dependency injection only. The users service is commented out in the source.
- `IsUrl`, `IsUUID` and `IsDateString`: uninterpreted predicates passed as parameters. The whitelist of the global `ValidationPipe` is modelled for the camera creation body only.
- The `Messages` enum: its members are distinct opaque keys, not their text. Node error messages are abstract strings.
- Cameras.CreateOutcome: the second 409, for a camera of the same name in the room (src/modules/cameras/cameras.service.ts:57-78), is not modelled as a separate branch. It can never fire, because any camera in the room has already produced the first 409.
- Ordering: rows come back in whatever order the database enumerates them. That order is a `scan` parameter, so no particular order is promised.
- CameraDto: the decorator-only DTOs of other modules (headquarter, room, service, user, mail template) are not modelled. src/modules/cameras/dtos/update-camera.dto.ts is not part of this model.
- CameraDto.CreateCameraViolations: the "should not exist" messages come in the order `authCamera`, `movementsPTZ`, then the rest, where the pipe follows the body's own key order.
- Cameras.CreateOutcome: the credentials always hold integer ports, as the nested validation would guarantee. A body that reaches the service with the ports missing or of another type is not modelled. Either would end in a TypeError or a Prisma error, both a 500.
- Streamings.ExecPTZ: which network failures carry `ETIMEDOUT` is decided by axios and Node, outside the model. The request's own 3000 ms time-out ends with `ECONNABORTED` and is therefore a 500, not a 408.
- Text.LowerChar: only the ASCII capitals and the Latin-1 capitals from U+00C0 to U+00DE are lowered. The rest of Unicode case mapping (Greek, Cyrillic, Latin Extended-A and on) is kept as is, where `toLowerCase` lowers it.
- Text.Lower: the result has the input's length, which `toLowerCase` does not keep for İ (U+0130): it lowers to two characters, "i" and U+0307.
- Pagination.ParseInt: the exact integer is rounded to the nearest double. Section 19.2.5 of ECMA-262 lets an implementation replace the decimal digits after the 20th significant one by zeros first, which can round differently; the model does not.
- Strings are sequences of Unicode code points, where JavaScript works on UTF-16 code units. The length limits are not affected: validator.js `isLength` counts a surrogate pair once, and its skipping of U+FE0E and U+FE0F is modelled (CameraDto.IsLengthCount). Orders and positions are code-point ones throughout.
- Text.LexLess: names are ordered by code point, where `orderBy: { name: 'asc' }` follows the database's collation. So the order promised by Headquarters.FindAllListing, Headquarters.FindActiveExact, Rooms.FindAllPage and Cameras.FindAllPage is the code-point order.
- Sorting.LexLessStrictTotal: it is about that code-point order, not the database collation.
- Worker.Tick: one instant `now` serves both phases, where the source reads `new Date()` once per phase (src/modules/backgroundWorkerServices/backgroundworkerStraming.service.ts:45 and :99). A boundary falling between the two reads is acted on one tick later than modelled. Worker.TickIdempotent and Worker.OnAndOffInOneTick rest on the single instant.

## Findings

| source | as written | input that shows it | evidently intended | confidence | as-written member | corrected member |
|---|---|---|---|---|---|---|
| src/modules/cameras/dtos/create-camera.dto.ts:94-97 | `authCamera` has only a documentation decorator, so the global pipe (`whitelist`, `forbidNonWhitelisted`) treats it as an unknown property; `movementsPTZ`, read by the service, is not declared at all | `IntendedBodiesRejected`: every body with valid fields and valid credentials draws "property authCamera should not exist"; a body without credentials passes and `Cameras.CreateOutcome` answers it with a 500 | validate `authCamera` as a required nested `AuthCameraDto` (`@IsDefined`, `@ValidateNested`, `@Type`) and declare `movementsPTZ` | not executed | CameraDto.CreateCameraViolations | CameraDto.CreateCameraViolationsIntended |
| src/modules/cameras/cameras.service.ts:589-597 | the current stream row is found, but the update is keyed by the camera's id instead of that row's id | `CameraFailMissesRow`: camera "cam" streaming on row "row" gets a 500 and no mail | mark the row that was found as FAIL and send the mail | not executed | Cameras.CameraFailAsWritten | Cameras.CameraFail |
| src/modules/services/services.service.ts:94-100 | a successful booking without streaming builds its `'Objet'` envelope but does not return it | `CreateDropsEnvelope`: a booking of an open room with no streaming is stored, yet the caller gets no body | return the envelope with the new booking | not executed | Services.CreateAsWritten | Services.CreateOutcome |
| src/modules/services/services.service.ts:272-289 | neither success envelope of `update` is returned | `UpdateDropsPassword`: a streaming update writes the stream row, yet the caller never receives the one-time password | return the envelope | not executed | Services.UpdateAsWritten | Services.UpdateOutcome |
| src/modules/Streamings/streamings.service.ts:88-108 | the success envelope is thrown inside the inner `try`, so its own `catch` turns it into a 500 | `ExecPTZSuccessLost`: any movement whose `PUT` succeeds | answer 200 when the movement ran | not executed | Streamings.ExecPTZAsWritten | Streamings.ExecPTZ |
| src/modules/camerasOnline/camerasOnline.service.ts:101-109 | the restart test is `includes('active')`, which the output "inactive" also satisfies | `InactiveRestartsAsWritten`: `is-active` prints "inactive\n" and the stopped unit is restarted | restart only a unit that reports "active" | not executed; it also assumes `execCommand` resolves with the output of a command that exits non-zero | Artifacts.InactiveRestartsAsWritten | Artifacts.UpdateRestartsOnlyActive |
