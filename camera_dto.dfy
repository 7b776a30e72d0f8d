/** The request body of camera creation
    (src/modules/cameras/dtos/create-camera.dto.ts): the class-validator
    constraints declared on `AuthCameraDto` and `CreateCameraDto`, as a list
    of violation messages and as a validity predicate. */
module CameraDto {
  import opened Optional

  /** A JSON value as it arrives in a request body, as far as the
      constraints can tell values apart. */
  datatype Json = JString(s: string) | JBool(b: bool) | JInt(i: int) | JFraction(x: real) | JOther

  datatype AuthCameraBody = AuthCameraBody(
    userName: Json, password: Json, ipAddress: Json, rtspPort: Json,
    endPointRtsp: Json, httpPort: Json, endPointImagePreview: Option<Json>)

  /** A creation body: the four declared fields, the credentials object if
      the body has one, whether it has a `movementsPTZ` property, and the
      names of any further properties. */
  datatype CreateCameraBody = CreateCameraBody(
    name: Json, active: Json, hasPTZ: Json, roomId: Json,
    authCamera: Option<AuthCameraBody>, hasMovements: bool, others: seq<string>)

  /** The length validator.js `isLength` measures: one per code point, the
      variation selectors U+FE0E and U+FE0F not counted. */
  function IsLengthCount(s: string): (n: nat)
    ensures n <= |s|
    ensures (forall i :: 0 <= i < |s| ==> s[i] != '\U{FE0E}' && s[i] != '\U{FE0F}') ==> n == |s|
  {
    if s == [] then 0
    else (if s[0] == '\U{FE0E}' || s[0] == '\U{FE0F}' then 0 else 1) + IsLengthCount(s[1..])
  }

  /** `@IsString() @MinLength(lo) @MaxLength(hi)` */
  predicate LengthBetween(v: Json, lo: nat, hi: nat) {
    v.JString? && lo <= IsLengthCount(v.s) <= hi
  }

  /** A variation selector does not count: "ab" followed by U+FE0F is too
      short for `@MinLength(3)`, though it holds three code points. */
  lemma VariationSelectorNotCounted()
    ensures |"ab\U{FE0F}"| == 3
    ensures !LengthBetween(JString("ab\U{FE0F}"), 3, 50)
  {
    assert IsLengthCount("\U{FE0F}") == 0 by {
      assert "\U{FE0F}"[1..] == [];
    }
    assert "ab\U{FE0F}"[1..] == "b\U{FE0F}" && "b\U{FE0F}"[1..] == "\U{FE0F}";
  }

  /** `@IsInt() @Min(lo) @Max(hi)` */
  predicate IntBetween(v: Json, lo: int, hi: int) {
    v.JInt? && lo <= v.i <= hi
  }

  /** `@Min(lo)` and `@Max(hi)` on their own: any number in the range, a
      fraction included. */
  predicate NumberBetween(v: Json, lo: int, hi: int) {
    || (v.JInt? && lo <= v.i <= hi)
    || (v.JFraction? && lo as real <= v.x <= hi as real)
  }

  predicate IsUrlValue(v: Json, isUrl: string -> bool) {
    v.JString? && isUrl(v.s)
  }

  /** Every constraint of `AuthCameraDto`; `isUrl` stands for class-validator's
      `IsUrl`. The preview end point has no `@IsOptional`, so it is required. */
  predicate ValidAuthCamera(a: AuthCameraBody, isUrl: string -> bool) {
    && LengthBetween(a.userName, 3, 50)
    && LengthBetween(a.password, 6, 50)
    && a.ipAddress.JString?
    && IntBetween(a.rtspPort, 1, 65535)
    && IsUrlValue(a.endPointRtsp, isUrl)
    && IntBetween(a.httpPort, 1, 65535)
    && a.endPointImagePreview.Some? && IsUrlValue(a.endPointImagePreview.value, isUrl)
  }

  /** The decorated fields of `CreateCameraDto`; `isUuid4` stands for
      `IsUUID('4')`. */
  predicate ValidFields(c: CreateCameraBody, isUuid4: string -> bool) {
    && LengthBetween(c.name, 3, 50)
    && c.active.JBool?
    && c.hasPTZ.JBool?
    && c.roomId.JString? && isUuid4(c.roomId.s)
  }

  /** What the global pipe accepts as the DTO is written: the decorated fields
      hold, and the body has no property without a validation decorator,
      which `authCamera` (only documented) and `movementsPTZ` (not declared)
      both are. */
  predicate AcceptedAsWritten(c: CreateCameraBody, isUuid4: string -> bool) {
    ValidFields(c, isUuid4) && c.authCamera.None? && !c.hasMovements && c.others == []
  }

  /** What the DTO evidently means to accept: the decorated fields hold, the
      credentials are present and valid, and nothing beyond the declared
      properties and `movementsPTZ` is sent. */
  predicate ValidCreateCamera(c: CreateCameraBody, isUrl: string -> bool, isUuid4: string -> bool) {
    && ValidFields(c, isUuid4)
    && c.authCamera.Some? && ValidAuthCamera(c.authCamera.value, isUrl)
    && c.others == []
  }

  /** The messages of the string-length constraints of one field, in the
      order the decorators were applied (bottom up): `@MaxLength`,
      `@MinLength`, `@IsString`. Both length checks fail on a non-string. */
  function LengthMessages(v: Json, lo: nat, hi: nat, notString: string, tooShort: string, tooLong: string): (r: seq<string>)
    ensures r == [] <==> LengthBetween(v, lo, hi)
    ensures !v.JString? ==> |r| == 3 && r[2] == notString
    ensures v.JString? && lo <= hi ==> |r| <= 1
  {
    if !v.JString? then [tooLong, tooShort, notString]
    else (if IsLengthCount(v.s) > hi then [tooLong] else []) + (if IsLengthCount(v.s) < lo then [tooShort] else [])
  }

  /** The messages of the integer-range constraints of one field, bottom
      up: `@Max`, `@Min`, `@IsInt`. The range checks accept any number, so
      a fraction in range draws only the `@IsInt` message. */
  function RangeMessages(v: Json, lo: int, hi: int, notInt: string, tooSmall: string, tooLarge: string): (r: seq<string>)
    ensures r == [] <==> IntBetween(v, lo, hi)
    ensures NumberBetween(v, lo, hi) && !v.JInt? ==> r == [notInt]
    ensures !v.JInt? ==> r[|r| - 1] == notInt
    ensures !v.JInt? && !v.JFraction? ==> |r| == 3
  {
    match v
    case JInt(i) => (if i > hi then [tooLarge] else []) + (if i < lo then [tooSmall] else [])
    case JFraction(x) => (if x > hi as real then [tooLarge] else []) + (if x < lo as real then [tooSmall] else []) + [notInt]
    case _ => [tooLarge, tooSmall, notInt]
  }

  function AuthCameraViolations(a: AuthCameraBody, isUrl: string -> bool): (r: seq<string>)
    ensures r == [] <==> ValidAuthCamera(a, isUrl)
    ensures a.endPointImagePreview.None? ==> "Image preview URL must be a valid URL" in r
  {
    LengthMessages(a.userName, 3, 50, "Username is required",
      "Username must be at least 3 characters long", "Username must be at most 50 characters long")
    + LengthMessages(a.password, 6, 50, "Password is required",
      "Password must be at least 6 characters long", "Password must be at most 50 characters long")
    + (if a.ipAddress.JString? then [] else ["IP address is required"])
    + RangeMessages(a.rtspPort, 1, 65535, "RTSP port must be an integer",
      "RTSP port must be at least 1", "RTSP port must be at most 65535")
    + (if IsUrlValue(a.endPointRtsp, isUrl) then [] else ["RTSP URL must be a valid URL"])
    + RangeMessages(a.httpPort, 1, 65535, "HTTP port must be an integer",
      "HTTP port must be at least 1", "HTTP port must be at most 65535")
    + (if a.endPointImagePreview.Some? && IsUrlValue(a.endPointImagePreview.value, isUrl) then []
       else ["Image preview URL must be a valid URL"])
  }

  function FieldViolations(c: CreateCameraBody, isUuid4: string -> bool): (r: seq<string>)
    ensures r == [] <==> ValidFields(c, isUuid4)
  {
    LengthMessages(c.name, 3, 50, "Name is required",
      "Name must be at least 3 characters long", "Name must be at most 50 characters long")
    + (if c.active.JBool? then [] else ["Active must be a boolean value"])
    + (if c.hasPTZ.JBool? then [] else ["HasPTZ must be a boolean value"])
    + (if c.roomId.JString? && isUuid4(c.roomId.s) then [] else ["RoomId must be a valid UUID"])
  }

  /** The `forbidNonWhitelisted` message of a property. */
  function NotAllowedMessage(name: string): string {
    "property " + name + " should not exist"
  }

  /** The message of `@IsDefined()` on an absent `authCamera`. */
  const AUTH_CAMERA_UNDEFINED: string := "authCamera should not be null or undefined"

  /** The `forbidNonWhitelisted` message of each named property. */
  function NotAllowed(names: seq<string>): (r: seq<string>)
    ensures |r| == |names|
    ensures forall i :: 0 <= i < |names| ==> r[i] == NotAllowedMessage(names[i])
  {
    if names == [] then [] else [NotAllowedMessage(names[0])] + NotAllowed(names[1..])
  }

  /** The properties of a body that carry no validation decorator. */
  function Undeclared(c: CreateCameraBody): seq<string> {
    (if c.authCamera.Some? then ["authCamera"] else [])
    + (if c.hasMovements then ["movementsPTZ"] else [])
    + c.others
  }

  /** The violation messages of a creation body as the global pipe produces
      them for the DTO as written: the undecorated properties first, then
      the decorated fields in declaration order. The credentials are never
      looked into. */
  function CreateCameraViolations(c: CreateCameraBody, isUuid4: string -> bool): (r: seq<string>)
    ensures r == [] <==> AcceptedAsWritten(c, isUuid4)
    ensures c.authCamera.Some? ==> r[0] == NotAllowedMessage("authCamera")
  {
    NotAllowed(Undeclared(c)) + FieldViolations(c, isUuid4)
  }

  /** The messages do not depend on what the credentials hold. */
  lemma CredentialsNeverInspected(c: CreateCameraBody, a: AuthCameraBody, isUuid4: string -> bool)
    requires c.authCamera.Some?
    ensures CreateCameraViolations(c.(authCamera := Some(a)), isUuid4) == CreateCameraViolations(c, isUuid4)
  {
  }

  /** Every body the DTO means to accept is rejected as written. */
  lemma IntendedBodiesRejected(c: CreateCameraBody, isUrl: string -> bool, isUuid4: string -> bool)
    requires ValidCreateCamera(c, isUrl, isUuid4)
    ensures CreateCameraViolations(c, isUuid4) != []
    ensures NotAllowedMessage("authCamera") in CreateCameraViolations(c, isUuid4)
  {
  }

  /** Each message prefixed with the path of the nested object, as the pipe
      reports the errors of a nested object. */
  function Prefixed(path: string, ms: seq<string>): (r: seq<string>)
    ensures |r| == |ms|
    ensures forall i :: 0 <= i < |ms| ==> r[i] == path + "." + ms[i]
  {
    if ms == [] then [] else [path + "." + ms[0]] + Prefixed(path, ms[1..])
  }

  /** The violation messages the DTO evidently intends, with `authCamera`
      declared `@IsDefined() @ValidateNested() @Type(() => AuthCameraDto)`
      and `movementsPTZ` declared: further properties first, then the
      fields, then the credentials. Nested validation skips an absent
      object, so its absence is reported by `@IsDefined()` alone. */
  function CreateCameraViolationsIntended(c: CreateCameraBody, isUrl: string -> bool, isUuid4: string -> bool): (r: seq<string>)
    ensures r == [] <==> ValidCreateCamera(c, isUrl, isUuid4)
    ensures c.authCamera.None? ==> r[|r| - 1] == AUTH_CAMERA_UNDEFINED
  {
    var head := NotAllowed(c.others) + FieldViolations(c, isUuid4);
    var nested := match c.authCamera
      case None => [AUTH_CAMERA_UNDEFINED]
      case Some(a) => Prefixed("authCamera", AuthCameraViolations(a, isUrl));
    head + nested
  }
}
