/** Cameras (src/modules/cameras/cameras.service.ts): creation of a camera
    with its credentials and PTZ movements in a room that holds no camera yet,
    the paginated listing, update, removal, and the failure report a camera's
    stream script sends. Every outcome, success included, is thrown as an
    `HttpException` carrying the envelope. */
module Cameras {
  import opened Optional
  import opened Text
  import opened Envelope
  import opened Store
  import opened Sorting
  import opened Pagination
  import opened Listing
  import opened Duplicates

  datatype MovementInput = MovementInput(name: string, order: int, endPoint: string)

  /** The credentials of a request body; ports arrive as numbers. */
  datatype AuthInput = AuthInput(
    userName: string, password: string, ipAddress: string, rtspPort: int,
    endPointRtsp: string, httpPort: int, endPointImagePreview: Option<string>)

  /** The creation body. `authCamera` and `movementsPTZ` carry no validation
      and may be absent. */
  datatype CameraInput = CameraInput(
    name: string, active: bool, hasPTZ: bool, roomId: Id,
    authCamera: Option<AuthInput>, movementsPTZ: Option<seq<MovementInput>>)

  /** The update body: every field may be absent. */
  datatype CameraChanges = CameraChanges(
    name: Option<string>, active: Option<bool>, hasPTZ: Option<bool>, roomId: Option<Id>,
    authCamera: Option<AuthInput>, movementsPTZ: Option<seq<MovementInput>>)

  /** `{id, name, hasPTZ, active, roomName, headquarterName}`. */
  datatype CameraView = CameraView(
    id: Id, name: string, hasPTZ: bool, active: bool,
    roomName: Option<string>, headquarterName: Option<string>)

  const ROOM_MISSING: string := "La sala asociada no existe o está inactiva."
  const CREATED_MESSAGE: string := "Cámara creada con éxito."
  const CREATE_LEAD: string := "La cámara fue creada, pero no se pudieron agregar los movimientos PTZ debido a "
  const UPDATE_LEAD: string := "La cámara fue actualizada, pero no se pudieron actualizar los movimientos PTZ debido a "
  const CAMERA_MISSING: string := "\"La cámara no existe.\""
  const STREAM_CURRENT: string := "\"Existe un servicio con streaming activo asociado a esta cámara, primero remuevalo para continuar\"."
  const FAIL_CAMERA_MISSING: string := "Cámara no encontrada."
  const FAIL_NO_CURRENT: string := "No hay un online activo para esta cámara."
  const FAIL_SUBJECT: string := "Notificación de Fallo en la Cámara"

  // ---------------------------------------------------------------------
  // Relations and invariants
  // ---------------------------------------------------------------------

  /** The room exists and is active (`findUnique({where: {id, active: true}})`). */
  predicate RoomOpen(t: Tables, roomId: Id) {
    roomId in t.rooms && t.rooms[roomId].active
  }

  function HeadquarterOfRoom(t: Tables, roomId: Id): Option<string> {
    if roomId in t.rooms && t.rooms[roomId].headquarterId in t.headquarters
    then Some(t.headquarters[t.rooms[roomId].headquarterId].name)
    else None
  }

  function RoomName(t: Tables, roomId: Id): Option<string> {
    if roomId in t.rooms then Some(t.rooms[roomId].name) else None
  }

  /** No room holds two cameras. */
  predicate OneCameraPerRoom(cameras: map<Id, Camera>) {
    forall a, b :: a in cameras && b in cameras && a != b ==> cameras[a].roomId != cameras[b].roomId
  }

  predicate MovementsReferenceCameras(t: Tables) {
    forall m :: m in t.movements ==> t.movements[m].cameraId in t.cameras
  }

  /** The PTZ movements of one camera differ in name and in order. */
  predicate DistinctMovements(movements: map<Id, Movement>) {
    forall a, b :: a in movements && b in movements && a != b && movements[a].cameraId == movements[b].cameraId ==>
      movements[a].name != movements[b].name && movements[a].order != movements[b].order
  }

  predicate OnlinesReferenceCameras(t: Tables) {
    forall o :: o in t.onlines ==> t.onlines[o].cameraId in t.cameras
  }

  // ---------------------------------------------------------------------
  // PTZ movements
  // ---------------------------------------------------------------------

  function Names(ms: seq<MovementInput>): (r: seq<string>)
    ensures |r| == |ms| && forall i :: 0 <= i < |ms| ==> r[i] == ms[i].name
  {
    seq(|ms|, i requires 0 <= i < |ms| => ms[i].name)
  }

  function Orders(ms: seq<MovementInput>): (r: seq<int>)
    ensures |r| == |ms| && forall i :: 0 <= i < |ms| ==> r[i] == ms[i].order
  {
    seq(|ms|, i requires 0 <= i < |ms| => ms[i].order)
  }

  function OrderTexts(orders: seq<int>): (r: seq<string>)
    ensures |r| == |orders|
  {
    seq(|orders|, i requires 0 <= i < |orders| => IntToString(orders[i]))
  }

  /** The refusal message of the PTZ check: repeated names first, then
      repeated orders; none when both are free of repeats. */
  function MovementProblem(ms: seq<MovementInput>, lead: string): (r: Option<string>)
    ensures r.None? <==> Distinct(Names(ms)) && Distinct(Orders(ms))
    ensures r.Some? ==> |r.value| > 0
  {
    RepeatsEmptyIff(Names(ms));
    RepeatsEmptyIff(Orders(ms));
    var names := Repeats(Names(ms));
    var orders := Repeats(Orders(ms));
    if names != [] then Some(lead + "nombres duplicados: " + Join(names, ", ") + ".")
    else if orders != [] then Some(lead + "órdenes duplicadas: " + Join(OrderTexts(orders), ", ") + ".")
    else None
  }

  function MovementOf(m: MovementInput, cameraId: Id): Movement {
    Movement(m.name, m.order, m.endPoint, cameraId)
  }

  /** The rows `movementsPTZ.create` adds to `ms`, one input after the
      other, the i-th input under the i-th id. */
  function AddMovements(ms: map<Id, Movement>, ids: seq<Id>, inputs: seq<MovementInput>, cameraId: Id): (r: map<Id, Movement>)
    requires |ids| == |inputs|
    ensures forall k :: k in r ==> k in ms || k in ids
    ensures forall k :: k in ms || k in ids ==> k in r
    ensures forall k :: k in ms && k !in ids ==> r[k] == ms[k]
    ensures Distinct(ids) ==> forall i :: 0 <= i < |ids| ==> r[ids[i]] == MovementOf(inputs[i], cameraId)
    decreases |ids|
  {
    if ids == [] then ms
    else
      var r := AddMovements(ms[ids[0] := MovementOf(inputs[0], cameraId)], ids[1..], inputs[1..], cameraId);
      assert forall k :: k in ids <==> k == ids[0] || k in ids[1..];
      assert Distinct(ids) ==> Distinct(ids[1..]) && ids[0] !in ids[1..];
      assert forall i :: 0 < i < |ids| ==> ids[i] == ids[1..][i - 1] && inputs[i] == inputs[1..][i - 1];
      r
  }

  /** `deleteMany({where: {cameraId}})` on a table whose rows name a camera:
      the rows of the other cameras, unchanged. */
  function DropRowsOf<V>(rows: map<Id, V>, cameraOf: V -> Id, cameraId: Id): (r: map<Id, V>)
    ensures forall k :: k in r <==> k in rows && cameraOf(rows[k]) != cameraId
    ensures forall k :: k in r ==> r[k] == rows[k]
  {
    map k | k in rows && cameraOf(rows[k]) != cameraId :: rows[k]
  }

  function MovementCamera(m: Movement): Id {
    m.cameraId
  }

  function OnlineCamera(o: CameraOnline): Id {
    o.cameraId
  }

  /** Adding the movements of a camera that has none keeps the movements of
      each camera distinct, when the inputs have no repeated name or order. */
  lemma AddKeepsDistinct(ms: map<Id, Movement>, ids: seq<Id>, inputs: seq<MovementInput>, cameraId: Id)
    requires |ids| == |inputs| && Distinct(ids) && (forall k :: k in ids ==> k !in ms)
    requires DistinctMovements(ms) && (forall k :: k in ms ==> ms[k].cameraId != cameraId)
    requires Distinct(Names(inputs)) && Distinct(Orders(inputs))
    ensures DistinctMovements(AddMovements(ms, ids, inputs, cameraId))
  {
    var r := AddMovements(ms, ids, inputs, cameraId);
    forall a, b | a in r && b in r && a != b && r[a].cameraId == r[b].cameraId
      ensures r[a].name != r[b].name && r[a].order != r[b].order
    {
      if a in ids && b in ids {
        var i :| 0 <= i < |ids| && ids[i] == a;
        var j :| 0 <= j < |ids| && ids[j] == b;
        assert Names(inputs)[i] != Names(inputs)[j] by {
          if i < j { } else { assert j < i; }
        }
        assert Orders(inputs)[i] != Orders(inputs)[j] by {
          if i < j { } else { assert j < i; }
        }
      }
    }
  }

  // ---------------------------------------------------------------------
  // create
  // ---------------------------------------------------------------------

  /** The stored credentials: ports as decimal text (`toString()`). */
  function StoredAuth(a: AuthInput): AuthCamera {
    AuthCamera(a.userName, a.password, a.ipAddress, IntToString(a.rtspPort), a.endPointRtsp,
               IntToString(a.httpPort), a.endPointImagePreview)
  }

  function OccupiedMessage(t: Tables, roomId: Id): string
    requires roomId in t.rooms
  {
    "Ya existe una cámara asignada a la sala '" + t.rooms[roomId].name + "' de la sede '"
      + HeadquarterOfRoom(t, roomId).GetOr("") + "'. No se puede crear una nueva cámara en esta sala."
  }

  function ViewOf(t: Tables, id: Id, c: Camera): CameraView {
    CameraView(id, c.name, c.hasPTZ, c.active, RoomName(t, c.roomId), HeadquarterOfRoom(t, c.roomId))
  }

  /** The transaction's effect: the credentials row and the camera row. */
  function Installed(t: Tables, input: CameraInput, auth: AuthInput, id: Id, authId: Id): Tables {
    t.(auths := t.auths[authId := StoredAuth(auth)],
       cameras := t.cameras[id := Camera(input.name, input.active, input.hasPTZ, input.roomId, Some(authId))])
  }

  /** Whether the request asks for PTZ movements (`hasPTZ && movementsPTZ?.length > 0`). */
  predicate WantsMovements(hasPTZ: bool, movements: Option<seq<MovementInput>>) {
    hasPTZ && movements.Some? && |movements.value| > 0
  }

  /** Ids the database hands out for new rows: distinct and unused. */
  predicate FreshIds(ids: seq<Id>, used: map<Id, Movement>) {
    Distinct(ids) && forall k :: k in ids ==> k !in used
  }

  /** `create`. The check for a camera of the same name in the room
      (lines 57-78) is left out: it can never fire, since any camera in the
      room has already been refused by the check before it. */
  function CreateOutcome(t: Tables, input: CameraInput, id: Id, authId: Id, movementIds: seq<Id>): (o: Outcome<CameraView>)
    requires id !in t.cameras && authId !in t.auths
    requires |movementIds| == |input.movementsPTZ.GetOr([])| && FreshIds(movementIds, t.movements)
    ensures o.response.Thrown? && o.response.code == o.response.body.status
    ensures o.response.IsError(NOT_FOUND) <==> !RoomOpen(t, input.roomId)
    ensures o.response.IsError(CONFLICT) <==> RoomOpen(t, input.roomId) && CamerasIn(t.cameras, input.roomId) != {}
    ensures o.response.IsError(INTERNAL_SERVER_ERROR) <==>
      RoomOpen(t, input.roomId) && CamerasIn(t.cameras, input.roomId) == {} && input.authCamera.None?
    ensures o.response.IsError(NOT_FOUND) || o.response.IsError(CONFLICT) || o.response.IsError(INTERNAL_SERVER_ERROR) ==>
      o.tables == t
    ensures o.response.IsError(BAD_REQUEST) <==>
      RoomOpen(t, input.roomId) && CamerasIn(t.cameras, input.roomId) == {} && input.authCamera.Some?
      && WantsMovements(input.hasPTZ, input.movementsPTZ)
      && !(Distinct(Names(input.movementsPTZ.value)) && Distinct(Orders(input.movementsPTZ.value)))
    ensures o.response.IsError(BAD_REQUEST) ==> o.tables == Installed(t, input, input.authCamera.value, id, authId)
    ensures o.response.body.ok ==>
      && o.response.body.status == CREATED
      && input.authCamera.Some?
      && o.response.body.data == Some([ViewOf(t, id, Camera(input.name, input.active, input.hasPTZ, input.roomId, Some(authId)))])
      && var t1 := Installed(t, input, input.authCamera.value, id, authId);
         o.tables == if WantsMovements(input.hasPTZ, input.movementsPTZ)
                     then t1.(movements := AddMovements(t.movements, movementIds, input.movementsPTZ.value, id))
                     else t1
  {
    if !RoomOpen(t, input.roomId) then
      Outcome(Fail(NOT_FOUND, Text(ROOM_MISSING)), t)
    else if CamerasIn(t.cameras, input.roomId) != {} then
      Outcome(Fail(CONFLICT, Text(OccupiedMessage(t, input.roomId))), t)
    else if input.authCamera.None? then
      Outcome(Unexpected(), t)
    else
      var camera := Camera(input.name, input.active, input.hasPTZ, input.roomId, Some(authId));
      var t1 := Installed(t, input, input.authCamera.value, id, authId);
      var done := Success(CREATED, Some(Text(CREATED_MESSAGE)), Some([ViewOf(t, id, camera)]), None, HttpException);
      if !WantsMovements(input.hasPTZ, input.movementsPTZ) then Outcome(done, t1)
      else
        var problem := MovementProblem(input.movementsPTZ.value, CREATE_LEAD);
        if problem.Some? then Outcome(Fail(BAD_REQUEST, Text(problem.value)), t1)
        else Outcome(done, t1.(movements := AddMovements(t.movements, movementIds, input.movementsPTZ.value, id)))
  }

  /** Creation never puts a second camera in a room, and keeps every
      movement attached to a camera and distinct from its siblings. */
  lemma CreateKeepsInvariants(t: Tables, input: CameraInput, id: Id, authId: Id, movementIds: seq<Id>)
    requires id !in t.cameras && authId !in t.auths
    requires |movementIds| == |input.movementsPTZ.GetOr([])| && FreshIds(movementIds, t.movements)
    requires OneCameraPerRoom(t.cameras) && MovementsReferenceCameras(t) && DistinctMovements(t.movements)
    ensures var t' := CreateOutcome(t, input, id, authId, movementIds).tables;
      OneCameraPerRoom(t'.cameras) && MovementsReferenceCameras(t') && DistinctMovements(t'.movements)
  {
    var t' := CreateOutcome(t, input, id, authId, movementIds).tables;
    if RoomOpen(t, input.roomId) && CamerasIn(t.cameras, input.roomId) == {} && input.authCamera.Some? {
      var t1 := Installed(t, input, input.authCamera.value, id, authId);
      InstallKeepsOneCamera(t, input, input.authCamera.value, id, authId);
      assert MovementsReferenceCameras(t1) && DistinctMovements(t1.movements);
      if WantsMovements(input.hasPTZ, input.movementsPTZ)
         && Distinct(Names(input.movementsPTZ.value)) && Distinct(Orders(input.movementsPTZ.value))
      {
        var ms := AddMovements(t.movements, movementIds, input.movementsPTZ.value, id);
        AddKeepsDistinct(t.movements, movementIds, input.movementsPTZ.value, id);
        AddKeepsReferences(t.movements, movementIds, input.movementsPTZ.value, id, t1.cameras);
        assert t' == t1.(movements := ms) by {
          assert MovementProblem(input.movementsPTZ.value, CREATE_LEAD).None?;
        }
      } else {
        assert t' == t1;
      }
    } else {
      assert t' == t;
    }
  }

  /** A camera placed in an empty room keeps one camera per room. */
  lemma InstallKeepsOneCamera(t: Tables, input: CameraInput, auth: AuthInput, id: Id, authId: Id)
    requires id !in t.cameras && OneCameraPerRoom(t.cameras) && CamerasIn(t.cameras, input.roomId) == {}
    ensures OneCameraPerRoom(Installed(t, input, auth, id, authId).cameras)
  {
    var cameras := Installed(t, input, auth, id, authId).cameras;
    forall a, b | a in cameras && b in cameras && a != b ensures cameras[a].roomId != cameras[b].roomId {
      if a == id {
        assert b !in CamerasIn(t.cameras, input.roomId);
      } else if b == id {
        assert a !in CamerasIn(t.cameras, input.roomId);
      }
    }
  }

  /** `movementsPTZ.create` for each input, one after the other. */
  method InsertMovements(db: Database, ids: seq<Id>, inputs: seq<MovementInput>, cameraId: Id)
    requires |ids| == |inputs|
    modifies db
    ensures db.Snapshot() == old(db.Snapshot()).(movements := AddMovements(old(db.movements), ids, inputs, cameraId))
  {
    ghost var t0, goal := db.Snapshot(), AddMovements(db.movements, ids, inputs, cameraId);
    var i := 0;
    while i < |ids|
      invariant 0 <= i <= |ids|
      invariant AddMovements(db.movements, ids[i..], inputs[i..], cameraId) == goal
      invariant db.Snapshot() == t0.(movements := db.movements)
    {
      assert ids[i..][1..] == ids[i + 1..] && inputs[i..][1..] == inputs[i + 1..];
      db.movements := db.movements[ids[i] := MovementOf(inputs[i], cameraId)];
      i := i + 1;
    }
  }

  method Create(db: Database, input: CameraInput, id: Id, authId: Id, movementIds: seq<Id>) returns (r: Response<CameraView>)
    requires id !in db.cameras && authId !in db.auths
    requires |movementIds| == |input.movementsPTZ.GetOr([])| && FreshIds(movementIds, db.movements)
    modifies db
    ensures Outcome(r, db.Snapshot()) == CreateOutcome(old(db.Snapshot()), input, id, authId, movementIds)
  {
    var t := db.Snapshot();
    if !(input.roomId in db.rooms && db.rooms[input.roomId].active) {
      return Fail(NOT_FOUND, Text(ROOM_MISSING));
    }
    var occupied := exists c | c in db.cameras :: db.cameras[c].roomId == input.roomId;
    if occupied {
      assert CamerasIn(t.cameras, input.roomId) != {};
      return Fail(CONFLICT, Text(OccupiedMessage(t, input.roomId)));
    }
    if input.authCamera.None? {
      return Unexpected();
    }
    var camera := Camera(input.name, input.active, input.hasPTZ, input.roomId, Some(authId));
    db.auths := db.auths[authId := StoredAuth(input.authCamera.value)];
    db.cameras := db.cameras[id := camera];
    r := Success(CREATED, Some(Text(CREATED_MESSAGE)), Some([ViewOf(t, id, camera)]), None, HttpException);
    if input.hasPTZ && input.movementsPTZ.Some? && |input.movementsPTZ.value| > 0 {
      var problem := MovementProblem(input.movementsPTZ.value, CREATE_LEAD);
      if problem.Some? {
        return Fail(BAD_REQUEST, Text(problem.value));
      }
      InsertMovements(db, movementIds, input.movementsPTZ.value, id);
    }
  }

  // ---------------------------------------------------------------------
  // findAll
  // ---------------------------------------------------------------------

  /** `value || null`: the empty name shows as null too. */
  function OrNull(v: Option<string>): Option<string> {
    if v.Some? && v.value != "" then v else None
  }

  /** `{id, name, hasPTZ, active, roomName, headquarterName}` as the listing
      formats it. */
  function ListedView(t: Tables, id: Id, c: Camera): CameraView {
    CameraView(id, c.name, c.hasPTZ, c.active, OrNull(RoomName(t, c.roomId)), OrNull(HeadquarterOfRoom(t, c.roomId)))
  }

  /** The cameras in `scan` whose name matches the search, in scan order. */
  function Matching(t: Tables, scan: seq<Id>, search: string): (rows: seq<CameraView>)
    requires forall k :: k in scan ==> k in t.cameras
    ensures forall v :: v in rows ==> v.id in t.cameras && v == ListedView(t, v.id, t.cameras[v.id]) && NameMatches(v.name, search)
    ensures forall k :: k in scan && NameMatches(t.cameras[k].name, search) ==> ListedView(t, k, t.cameras[k]) in rows
  {
    if scan == [] then []
    else
      var c := t.cameras[scan[0]];
      (if NameMatches(c.name, search) then [ListedView(t, scan[0], c)] else []) + Matching(t, scan[1..], search)
  }

  function ByName(v: CameraView): string {
    v.name
  }

  /** `findAll`: the matching cameras, ordered by name, one page of them;
      an empty page is a 404. */
  function FindAll(t: Tables, q: Query, scan: seq<Id>): (r: Response<CameraView>)
    requires ValidQuery(q) && ScanOf(scan, t.cameras)
    ensures r.IsError(NOT_FOUND) <==> q.page > TotalPages(|Matching(t, scan, q.search)|, q.pageSize)
    ensures r.Thrown? && r.code == r.body.status
    ensures !r.IsError(NOT_FOUND) ==>
      r.body.data.Some? && forall v :: v in r.body.data.value ==> v.id in t.cameras && NameMatches(v.name, q.search)
  {
    GuardedListing(Matching(t, scan, q.search), q, ByName)
  }

  /** The listing answers 404 exactly when the page lies past the last page
      of the matching cameras; otherwise it holds between one and `pageSize`
      of them, ordered by name, each shown with its room and headquarter. */
  lemma FindAllPage(t: Tables, q: Query, scan: seq<Id>)
    requires ValidQuery(q) && ScanOf(scan, t.cameras)
    ensures var r := FindAll(t, q, scan);
      && (r.IsError(NOT_FOUND) <==> q.page > TotalPages(|Matching(t, scan, q.search)|, q.pageSize))
      && (!r.IsError(NOT_FOUND) ==>
            && r.code == OK && r.body.ok && r.body.data.Some?
            && 0 < |r.body.data.value| <= q.pageSize
            && SortedBy(r.body.data.value, ByName, LexLess)
            && (forall v :: v in r.body.data.value ==>
                  v.id in t.cameras && v == ListedView(t, v.id, t.cameras[v.id]) && NameMatches(v.name, q.search)))
  {
  }

  /** Every camera matching the search is in the listing on exactly one page. */
  lemma FindAllCountsEveryMatch(t: Tables, q: Query, scan: seq<Id>)
    requires ScanOf(scan, t.cameras)
    ensures forall k :: k in t.cameras && NameMatches(t.cameras[k].name, q.search) ==>
      ListedView(t, k, t.cameras[k]) in Matching(t, scan, q.search)
  {
  }

  // ---------------------------------------------------------------------
  // update
  // ---------------------------------------------------------------------

  /** The spread of the new credentials over the stored ones: an absent
      image-preview endpoint leaves the stored one. */
  function MergedAuth(old_: AuthCamera, a: AuthInput): (r: AuthCamera)
    ensures r.endPointImagePreview == if a.endPointImagePreview.Some? then a.endPointImagePreview else old_.endPointImagePreview
  {
    var stored := StoredAuth(a);
    if a.endPointImagePreview.None? then stored.(endPointImagePreview := old_.endPointImagePreview) else stored
  }

  /** The camera row after `name ?? existing.name` and the like. */
  function Updated(c: Camera, ch: CameraChanges, roomId: Id): Camera {
    Camera(ch.name.GetOr(c.name), ch.active.GetOr(c.active), ch.hasPTZ.GetOr(c.hasPTZ), roomId, c.authCameraId)
  }

  /** The credentials update cannot find its row. */
  predicate AuthUnreachable(t: Tables, c: Camera) {
    c.authCameraId.None? || c.authCameraId.value !in t.auths
  }

  /** The transaction's effect: the credentials when given, then the camera. */
  function Revised(t: Tables, id: Id, ch: CameraChanges, roomId: Id): Tables
    requires id in t.cameras && (ch.authCamera.Some? ==> !AuthUnreachable(t, t.cameras[id]))
  {
    var c := t.cameras[id];
    var auths := if ch.authCamera.Some?
      then t.auths[c.authCameraId.value := MergedAuth(t.auths[c.authCameraId.value], ch.authCamera.value)]
      else t.auths;
    t.(auths := auths, cameras := t.cameras[id := Updated(c, ch, roomId)])
  }

  /** `update` gets past its existence and lookup checks: the camera
      exists, a room is given and open, and the credentials, when sent,
      can be reached. */
  predicate UpdateProceeds(t: Tables, id: Id, ch: CameraChanges) {
    && id in t.cameras && ch.roomId.Some? && RoomOpen(t, ch.roomId.value)
    && !(ch.authCamera.Some? && AuthUnreachable(t, t.cameras[id]))
  }

  /** `update`: a missing camera is a 404; an absent room id makes the room
      lookup fail (500); a closed room is a 404; credentials given for a
      camera whose credentials row cannot be found fail (500) with nothing
      written; the PTZ check runs after the camera has been saved. */
  function UpdateOutcome(t: Tables, id: Id, ch: CameraChanges, movementIds: seq<Id>): (o: Outcome<CameraView>)
    requires |movementIds| == |ch.movementsPTZ.GetOr([])| && FreshIds(movementIds, t.movements)
    ensures o.response.Thrown? && o.response.code == o.response.body.status
    ensures o.response.IsError(NOT_FOUND) <==> id !in t.cameras || (ch.roomId.Some? && !RoomOpen(t, ch.roomId.value))
    ensures o.response.IsError(INTERNAL_SERVER_ERROR) <==>
      id in t.cameras
      && (ch.roomId.None? || (RoomOpen(t, ch.roomId.value) && ch.authCamera.Some? && AuthUnreachable(t, t.cameras[id])))
    ensures o.response.IsError(NOT_FOUND) || o.response.IsError(INTERNAL_SERVER_ERROR) ==> o.tables == t
    ensures o.response.IsError(BAD_REQUEST) <==>
      && UpdateProceeds(t, id, ch) && WantsMovements(ch.hasPTZ == Some(true), ch.movementsPTZ)
      && !(Distinct(Names(ch.movementsPTZ.value)) && Distinct(Orders(ch.movementsPTZ.value)))
    ensures o.response.IsError(BAD_REQUEST) ==>
      o.tables == Revised(t, id, ch, ch.roomId.value)
    ensures o.response.body.ok <==>
      && UpdateProceeds(t, id, ch)
      && !(WantsMovements(ch.hasPTZ == Some(true), ch.movementsPTZ)
           && !(Distinct(Names(ch.movementsPTZ.value)) && Distinct(Orders(ch.movementsPTZ.value))))
    ensures o.response.body.ok ==>
      && o.response.body.status == OK && id in t.cameras && ch.roomId.Some?
      && o.response.body.data == Some([ViewOf(t, id, Updated(t.cameras[id], ch, ch.roomId.value))])
      && var t1 := Revised(t, id, ch, ch.roomId.value);
         o.tables == if WantsMovements(ch.hasPTZ == Some(true), ch.movementsPTZ)
                     then t1.(movements := Replaced(t, id, movementIds, ch.movementsPTZ.value))
                     else t1
  {
    if id !in t.cameras then
      Outcome(Fail(NOT_FOUND, Keyed(ErrorUpdating, CAMERA_MISSING)), t)
    else if ch.roomId.None? then
      Outcome(Unexpected(), t)
    else if !RoomOpen(t, ch.roomId.value) then
      Outcome(Fail(NOT_FOUND, Text(ROOM_MISSING)), t)
    else if ch.authCamera.Some? && AuthUnreachable(t, t.cameras[id]) then
      Outcome(Unexpected(), t)
    else
      var t1 := Revised(t, id, ch, ch.roomId.value);
      var camera := Updated(t.cameras[id], ch, ch.roomId.value);
      var done := Success(OK, Some(Key(SuccessfullyUpdated)), Some([ViewOf(t, id, camera)]), None, HttpException);
      if !WantsMovements(ch.hasPTZ == Some(true), ch.movementsPTZ) then Outcome(done, t1)
      else
        var problem := MovementProblem(ch.movementsPTZ.value, UPDATE_LEAD);
        if problem.Some? then Outcome(Fail(BAD_REQUEST, Text(problem.value)), t1)
        else
          Outcome(done, t1.(movements := Replaced(t, id, movementIds, ch.movementsPTZ.value)))
  }

  /** Movements added for an existing camera point at an existing camera. */
  lemma AddKeepsReferences(ms: map<Id, Movement>, ids: seq<Id>, inputs: seq<MovementInput>, cameraId: Id, cameras: map<Id, Camera>)
    requires |ids| == |inputs| && Distinct(ids) && cameraId in cameras
    requires forall m :: m in ms ==> ms[m].cameraId in cameras
    ensures forall m :: m in AddMovements(ms, ids, inputs, cameraId) ==> AddMovements(ms, ids, inputs, cameraId)[m].cameraId in cameras
  {
    var r := AddMovements(ms, ids, inputs, cameraId);
    forall m | m in r ensures r[m].cameraId in cameras {
      if m in ids {
        var i :| 0 <= i < |ids| && ids[i] == m;
      }
    }
  }

  /** The movement table an update leaves when it replaces the PTZ movements. */
  function Replaced(t: Tables, id: Id, movementIds: seq<Id>, inputs: seq<MovementInput>): map<Id, Movement>
    requires |movementIds| == |inputs|
  {
    AddMovements(DropRowsOf(t.movements, MovementCamera, id), movementIds, inputs, id)
  }

  lemma ReplacedKeepsMovements(t: Tables, id: Id, movementIds: seq<Id>, inputs: seq<MovementInput>)
    requires |movementIds| == |inputs| && FreshIds(movementIds, t.movements) && id in t.cameras
    requires MovementsReferenceCameras(t) && DistinctMovements(t.movements)
    requires Distinct(Names(inputs)) && Distinct(Orders(inputs))
    ensures forall m :: m in Replaced(t, id, movementIds, inputs) ==> Replaced(t, id, movementIds, inputs)[m].cameraId in t.cameras
    ensures DistinctMovements(Replaced(t, id, movementIds, inputs))
  {
    var kept := DropRowsOf(t.movements, MovementCamera, id);
    assert DistinctMovements(kept);
    AddKeepsDistinct(kept, movementIds, inputs, id);
    AddKeepsReferences(kept, movementIds, inputs, id, t.cameras);
  }

  /** Updating keeps the movements attached and distinct: the old movements
      of the camera are all replaced. */
  lemma UpdateKeepsMovements(t: Tables, id: Id, ch: CameraChanges, movementIds: seq<Id>)
    requires |movementIds| == |ch.movementsPTZ.GetOr([])| && FreshIds(movementIds, t.movements)
    requires MovementsReferenceCameras(t) && DistinctMovements(t.movements)
    ensures var t' := UpdateOutcome(t, id, ch, movementIds).tables;
      MovementsReferenceCameras(t') && DistinctMovements(t'.movements)
  {
    if id in t.cameras && ch.roomId.Some? && RoomOpen(t, ch.roomId.value)
       && !(ch.authCamera.Some? && AuthUnreachable(t, t.cameras[id]))
    {
      RevisionKeepsMovements(t, id, ch, movementIds);
    } else {
      assert UpdateOutcome(t, id, ch, movementIds).tables == t;
    }
  }

  /** The case of `UpdateKeepsMovements` where the camera row is written. */
  lemma RevisionKeepsMovements(t: Tables, id: Id, ch: CameraChanges, movementIds: seq<Id>)
    requires |movementIds| == |ch.movementsPTZ.GetOr([])| && FreshIds(movementIds, t.movements)
    requires MovementsReferenceCameras(t) && DistinctMovements(t.movements)
    requires id in t.cameras && ch.roomId.Some? && RoomOpen(t, ch.roomId.value)
    requires !(ch.authCamera.Some? && AuthUnreachable(t, t.cameras[id]))
    ensures var t' := UpdateOutcome(t, id, ch, movementIds).tables;
      MovementsReferenceCameras(t') && DistinctMovements(t'.movements)
  {
    var t' := UpdateOutcome(t, id, ch, movementIds).tables;
    var t1 := Revised(t, id, ch, ch.roomId.value);
    assert t1.cameras.Keys == t.cameras.Keys && t1.movements == t.movements;
    if WantsMovements(ch.hasPTZ == Some(true), ch.movementsPTZ)
       && Distinct(Names(ch.movementsPTZ.value)) && Distinct(Orders(ch.movementsPTZ.value))
    {
      ReplacedKeepsMovements(t, id, movementIds, ch.movementsPTZ.value);
      assert t' == t1.(movements := Replaced(t, id, movementIds, ch.movementsPTZ.value)) by {
        assert MovementProblem(ch.movementsPTZ.value, UPDATE_LEAD).None?;
      }
    } else {
      assert t' == t1;
    }
  }

  /** Unlike creation, an update may move a camera into a room that already
      holds one. */
  lemma UpdateMayShareRoom()
    ensures var t := Tables(
        map["h" := Headquarter("Sede", true)],
        map["r1" := Room("Sala 1", true, "h"), "r2" := Room("Sala 2", true, "h")],
        map["c1" := Camera("Norte", true, false, "r1", None), "c2" := Camera("Sur", true, false, "r2", None)],
        map[], map[], map[], map[], []);
      var ch := CameraChanges(None, None, None, Some("r1"), None, None);
      OneCameraPerRoom(t.cameras)
      && UpdateOutcome(t, "c2", ch, []).response.body.ok
      && !OneCameraPerRoom(UpdateOutcome(t, "c2", ch, []).tables.cameras)
  {
    var t := Tables(
        map["h" := Headquarter("Sede", true)],
        map["r1" := Room("Sala 1", true, "h"), "r2" := Room("Sala 2", true, "h")],
        map["c1" := Camera("Norte", true, false, "r1", None), "c2" := Camera("Sur", true, false, "r2", None)],
        map[], map[], map[], map[], []);
    var ch := CameraChanges(None, None, None, Some("r1"), None, None);
    var t' := UpdateOutcome(t, "c2", ch, []).tables;
    assert t'.cameras["c1"].roomId == t'.cameras["c2"].roomId;
  }

  method Update(db: Database, id: Id, ch: CameraChanges, movementIds: seq<Id>) returns (r: Response<CameraView>)
    requires |movementIds| == |ch.movementsPTZ.GetOr([])| && FreshIds(movementIds, db.movements)
    modifies db
    ensures Outcome(r, db.Snapshot()) == UpdateOutcome(old(db.Snapshot()), id, ch, movementIds)
  {
    var t := db.Snapshot();
    if id !in db.cameras {
      return Fail(NOT_FOUND, Keyed(ErrorUpdating, CAMERA_MISSING));
    }
    if ch.roomId.None? {
      return Unexpected();
    }
    var roomId := ch.roomId.value;
    if !(roomId in db.rooms && db.rooms[roomId].active) {
      return Fail(NOT_FOUND, Text(ROOM_MISSING));
    }
    var existing := db.cameras[id];
    if ch.authCamera.Some? {
      if existing.authCameraId.None? || existing.authCameraId.value !in db.auths {
        return Unexpected();
      }
      var authId := existing.authCameraId.value;
      db.auths := db.auths[authId := MergedAuth(db.auths[authId], ch.authCamera.value)];
    }
    var camera := Updated(existing, ch, roomId);
    db.cameras := db.cameras[id := camera];
    r := Success(OK, Some(Key(SuccessfullyUpdated)), Some([ViewOf(t, id, camera)]), None, HttpException);
    if ch.hasPTZ == Some(true) && ch.movementsPTZ.Some? && |ch.movementsPTZ.value| > 0 {
      var problem := MovementProblem(ch.movementsPTZ.value, UPDATE_LEAD);
      if problem.Some? {
        return Fail(BAD_REQUEST, Text(problem.value));
      }
      db.movements := DropRowsOf(db.movements, MovementCamera, id);
      InsertMovements(db, movementIds, ch.movementsPTZ.value, id);
    }
  }

  // ---------------------------------------------------------------------
  // remove
  // ---------------------------------------------------------------------

  predicate Streaming(t: Tables, id: Id) {
    exists o :: o in t.onlines && t.onlines[o].cameraId == id && t.onlines[o].current
  }

  /** The transaction: movements, stream rows, the camera, its credentials. */
  function Removed(t: Tables, id: Id): Tables
    requires id in t.cameras
  {
    var c := t.cameras[id];
    t.(movements := DropRowsOf(t.movements, MovementCamera, id),
       onlines := DropRowsOf(t.onlines, OnlineCamera, id),
       cameras := t.cameras - {id},
       auths := if c.authCameraId.Some? then t.auths - {c.authCameraId.value} else t.auths)
  }

  /** `remove`: refused while a current stream row exists; deleting a
      credentials row that is gone fails the whole transaction. */
  function RemoveOutcome(t: Tables, id: Id): (o: Outcome<CameraView>)
    ensures o.response.Thrown? && o.response.code == o.response.body.status
    ensures o.response.IsError(NOT_FOUND) <==> id !in t.cameras
    ensures o.response.IsError(CONFLICT) <==> id in t.cameras && Streaming(t, id)
    ensures o.response.IsError(INTERNAL_SERVER_ERROR) <==>
      id in t.cameras && !Streaming(t, id) && t.cameras[id].authCameraId.Some? && t.cameras[id].authCameraId.value !in t.auths
    ensures !o.response.body.ok ==> o.tables == t
    ensures o.response.body.ok ==> o.response.body.status == OK && id in t.cameras && o.tables == Removed(t, id)
  {
    if id !in t.cameras then
      Outcome(Fail(NOT_FOUND, Key(NoDataFound)), t)
    else if Streaming(t, id) then
      Outcome(Fail(CONFLICT, Keyed(ErrorCreating, STREAM_CURRENT)), t)
    else if t.cameras[id].authCameraId.Some? && t.cameras[id].authCameraId.value !in t.auths then
      Outcome(Unexpected(), t)
    else
      Outcome(Success(OK, Some(Key(SuccessfullyDeleted)), None, None, HttpException), Removed(t, id))
  }

  /** Removal leaves no movement and no stream row pointing at a camera that
      is gone, and keeps one camera per room. */
  lemma RemoveKeepsInvariants(t: Tables, id: Id)
    requires MovementsReferenceCameras(t) && OnlinesReferenceCameras(t) && OneCameraPerRoom(t.cameras)
    ensures var t' := RemoveOutcome(t, id).tables;
      MovementsReferenceCameras(t') && OnlinesReferenceCameras(t') && OneCameraPerRoom(t'.cameras)
    ensures RemoveOutcome(t, id).response.body.ok ==>
      var t' := RemoveOutcome(t, id).tables;
      id !in t'.cameras && (forall m :: m in t'.movements ==> t'.movements[m].cameraId != id)
  {
  }

  method Remove(db: Database, id: Id) returns (r: Response<CameraView>)
    modifies db
    ensures Outcome(r, db.Snapshot()) == RemoveOutcome(old(db.Snapshot()), id)
  {
    if id !in db.cameras {
      return Fail(NOT_FOUND, Key(NoDataFound));
    }
    var streaming := exists o | o in db.onlines :: db.onlines[o].cameraId == id && db.onlines[o].current;
    if streaming {
      return Fail(CONFLICT, Keyed(ErrorCreating, STREAM_CURRENT));
    }
    var camera := db.cameras[id];
    if camera.authCameraId.Some? && camera.authCameraId.value !in db.auths {
      return Unexpected();
    }
    db.movements := DropRowsOf(db.movements, MovementCamera, id);
    db.onlines := DropRowsOf(db.onlines, OnlineCamera, id);
    db.cameras := db.cameras - {id};
    if camera.authCameraId.Some? {
      db.auths := db.auths - {camera.authCameraId.value};
    }
    r := Success(OK, Some(Key(SuccessfullyDeleted)), None, None, HttpException);
  }

  // ---------------------------------------------------------------------
  // cameraFail
  // ---------------------------------------------------------------------

  function FailureMail(id: Id, message: string): Mail {
    Mail(FAIL_SUBJECT, "Cámara ID: " + id, "Mensaje: " + message)
  }

  /** The current stream row of camera `id` that `findFirst` hands back: the
      first such row in scan order. */
  function FirstCurrent(onlines: map<Id, CameraOnline>, scan: seq<Id>, id: Id): (r: Option<Id>)
    requires forall k :: k in scan ==> k in onlines
    ensures r.Some? ==> r.value in onlines && onlines[r.value].cameraId == id && onlines[r.value].current
    ensures r.None? ==> forall k :: k in scan ==> !(onlines[k].cameraId == id && onlines[k].current)
  {
    if scan == [] then None
    else if onlines[scan[0]].cameraId == id && onlines[scan[0]].current then Some(scan[0])
    else FirstCurrent(onlines, scan[1..], id)
  }

  function MarkFailed(row: CameraOnline, message: string): CameraOnline {
    row.(status := FAIL, descriptionStatus := Some(message))
  }

  /** `cameraFail` as written: the update is keyed by the camera's id
      (`where: {id: id}`), not by the id of the stream row just found, so it
      fails (500, no mail) unless some stream row happens to carry the
      camera's id as its own. */
  function CameraFailAsWritten(t: Tables, scan: seq<Id>, id: Id, message: string): (o: Outcome<CameraView>)
    requires ScanOf(scan, t.onlines)
    ensures o.response.Thrown? && o.response.code == o.response.body.status
    ensures o.response.body.ok ==> id in t.onlines
  {
    if id !in t.cameras then
      Outcome(Fail(NOT_FOUND, Keyed(NoDataFound, FAIL_CAMERA_MISSING)), t)
    else if FirstCurrent(t.onlines, scan, id).None? then
      Outcome(Fail(NOT_FOUND, Keyed(NoDataFound, FAIL_NO_CURRENT)), t)
    else if id !in t.onlines then
      Outcome(Unexpected(), t)
    else
      Outcome(Success(OK, None, None, None, HttpException),
              t.(onlines := t.onlines[id := MarkFailed(t.onlines[id], message)],
                 mails := t.mails + [FailureMail(id, message)]))
  }

  /** `cameraFail` as intended: the current stream row found is marked FAIL
      with the message, and the support address is mailed. */
  function CameraFail(t: Tables, scan: seq<Id>, id: Id, message: string): (o: Outcome<CameraView>)
    requires ScanOf(scan, t.onlines)
    ensures o.response.Thrown? && o.response.code == o.response.body.status
    ensures o.response.IsError(NOT_FOUND) <==> id !in t.cameras || !Streaming(t, id)
    ensures !o.response.body.ok ==> o.tables == t
    ensures o.response.body.ok ==>
      && o.response.body.status == OK
      && var row := FirstCurrent(t.onlines, scan, id).value;
         && t.onlines[row].cameraId == id && t.onlines[row].current
         && o.tables == t.(onlines := t.onlines[row := MarkFailed(t.onlines[row], message)],
                           mails := t.mails + [FailureMail(id, message)])
  {
    if id !in t.cameras then
      Outcome(Fail(NOT_FOUND, Keyed(NoDataFound, FAIL_CAMERA_MISSING)), t)
    else
      var found := FirstCurrent(t.onlines, scan, id);
      if found.None? then
        Outcome(Fail(NOT_FOUND, Keyed(NoDataFound, FAIL_NO_CURRENT)), t)
      else
        var row := found.value;
        Outcome(Success(OK, None, None, None, HttpException),
                t.(onlines := t.onlines[row := MarkFailed(t.onlines[row], message)],
                   mails := t.mails + [FailureMail(id, message)]))
  }

  /** A reported failure of a streaming camera always leaves its current
      stream row FAIL with the message, and one mail more. */
  lemma CameraFailMarksStream(t: Tables, scan: seq<Id>, id: Id, message: string)
    requires ScanOf(scan, t.onlines)
    requires id in t.cameras && Streaming(t, id)
    ensures var o := CameraFail(t, scan, id, message);
      && o.response.body.ok
      && (exists row :: row in o.tables.onlines && o.tables.onlines[row].cameraId == id
            && o.tables.onlines[row].status == FAIL && o.tables.onlines[row].descriptionStatus == Some(message))
      && |o.tables.mails| == |t.mails| + 1
  {
    var row := FirstCurrent(t.onlines, scan, id).value;
    assert CameraFail(t, scan, id, message).tables.onlines[row].cameraId == id;
  }

  /** The discrepancy: a camera streaming on a row whose id is not the
      camera's gets a 500 and no mail as written, a 200 as intended. */
  lemma CameraFailMissesRow()
    ensures var t := Tables(
        map[], map[],
        map["cam" := Camera("Norte", true, false, "r", None)],
        map[], map[], map[],
        map["row" := CameraOnline("cam", ONLINE, true, None, "/live/cam/stream.m3u8", "")],
        []);
      && CameraFailAsWritten(t, ["row"], "cam", "caida").response.IsError(INTERNAL_SERVER_ERROR)
      && CameraFailAsWritten(t, ["row"], "cam", "caida").tables.mails == []
      && CameraFail(t, ["row"], "cam", "caida").response.body.ok
      && CameraFail(t, ["row"], "cam", "caida").tables.onlines["row"].status == FAIL
  {
    var t := Tables(
        map[], map[],
        map["cam" := Camera("Norte", true, false, "r", None)],
        map[], map[], map[],
        map["row" := CameraOnline("cam", ONLINE, true, None, "/live/cam/stream.m3u8", "")],
        []);
    assert FirstCurrent(t.onlines, ["row"], "cam") == Some("row");
    assert "cam" !in t.onlines;
  }

  method CameraFailReport(db: Database, scan: seq<Id>, id: Id, message: string) returns (r: Response<CameraView>)
    requires ScanOf(scan, db.onlines)
    modifies db
    ensures Outcome(r, db.Snapshot()) == CameraFail(old(db.Snapshot()), scan, id, message)
  {
    if id !in db.cameras {
      return Fail(NOT_FOUND, Keyed(NoDataFound, FAIL_CAMERA_MISSING));
    }
    var i := 0;
    var found: Option<Id> := None;
    while i < |scan| && found.None?
      invariant 0 <= i <= |scan|
      invariant FirstCurrent(db.onlines, scan, id) ==
        if found.Some? then found else FirstCurrent(db.onlines, scan[i..], id)
      invariant found.Some? ==> found == FirstCurrent(db.onlines, scan, id)
    {
      var k := scan[i];
      if db.onlines[k].cameraId == id && db.onlines[k].current {
        found := Some(k);
      }
      i := i + 1;
    }
    if found.None? {
      return Fail(NOT_FOUND, Keyed(NoDataFound, FAIL_NO_CURRENT));
    }
    var row := found.value;
    db.onlines := db.onlines[row := MarkFailed(db.onlines[row], message)];
    db.mails := db.mails + [FailureMail(id, message)];
    r := Success(OK, None, None, None, HttpException);
  }
}
