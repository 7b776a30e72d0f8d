/** Bookings (src/modules/services/services.service.ts): a service books a
    room for a window of time; two bookings of one room may not overlap.
    A booking with streaming also opens a stream row for the room's camera,
    protected by a one-time password. */
module Services {
  import opened Optional
  import opened Envelope
  import opened Store

  /** The request body of `create` and `update`. */
  datatype Booking = Booking(roomId: Id, hasStreaming: bool, startAt: int, endAt: int)

  /** What a successful booking answers: the service row, and for a
      streaming booking also `{password}`, the one-time password in clear. */
  datatype ServiceData = Booked(id: Id, service: Service) | Credential(password: string)

  const ROOM_MISSING: string := "\"La sala que se está asociando no existe o está inactiva.\""
  const OVERLAP: string := "\"Ya existe un servicio en la sala durante el período especificado.\""
  const NO_CAMERA: string := "\"No hay una cámara asociada a esta sala.\""
  const SERVICE_MISSING: string := "\"El servicio que se está intentando actualizar no existe.\""

  /** The conflict filter: the same room, `startAt < endAt'` and
      `endAt > startAt'`. Windows are half-open, so one booking may start
      exactly when another ends. */
  predicate Overlaps(s: Service, b: Booking) {
    s.roomId == b.roomId && s.startAt < b.endAt && s.endAt > b.startAt
  }

  /** The booking of service `s` as a request body. */
  function BookingOf(s: Service): Booking {
    Booking(s.roomId, s.hasStreaming, s.startAt, s.endAt)
  }

  /** Some service other than `except` conflicts with the booking. */
  predicate Conflicting(services: map<Id, Service>, b: Booking, except: Option<Id>) {
    exists k :: k in services && Some(k) != except && Overlaps(services[k], b)
  }

  /** No two bookings of one room overlap. */
  predicate NoOverlap(services: map<Id, Service>) {
    forall a, b :: a in services && b in services && a != b ==> !Overlaps(services[a], BookingOf(services[b]))
  }

  /** Overlap does not depend on which of the two bookings comes first. */
  lemma OverlapsSymmetric(s: Service, u: Service)
    ensures Overlaps(s, BookingOf(u)) <==> Overlaps(u, BookingOf(s))
  {
  }

  /** Back-to-back bookings of one room never conflict. */
  lemma BackToBackAccepted(s: Service, b: Booking)
    requires s.roomId == b.roomId && b.startAt == s.endAt
    ensures !Overlaps(s, b)
  {
  }

  predicate InWindow(x: int, startAt: int, endAt: int) {
    startAt <= x < endAt
  }

  /** Two bookings of one room, each with `startAt < endAt`, conflict exactly
      when some instant lies in both half-open windows. */
  lemma OverlapsIffSharedInstant(s: Service, b: Booking)
    requires s.roomId == b.roomId && s.startAt < s.endAt && b.startAt < b.endAt
    ensures Overlaps(s, b) <==> exists x :: InWindow(x, s.startAt, s.endAt) && InWindow(x, b.startAt, b.endAt)
  {
    if Overlaps(s, b) {
      var x := if s.startAt < b.startAt then b.startAt else s.startAt;
      assert InWindow(x, s.startAt, s.endAt) && InWindow(x, b.startAt, b.endAt);
    }
  }

  predicate RoomOpen(t: Tables, roomId: Id) {
    roomId in t.rooms && t.rooms[roomId].active
  }

  /** The camera `camera.findFirst({where: {roomId}})` hands back: the first
      one of the room in scan order. */
  function FirstCameraIn(cameras: map<Id, Camera>, scan: seq<Id>, roomId: Id): (r: Option<Id>)
    requires forall k :: k in scan ==> k in cameras
    ensures r.Some? ==> r.value in scan && cameras[r.value].roomId == roomId
    ensures r.None? <==> forall k :: k in scan ==> cameras[k].roomId != roomId
  {
    if scan == [] then None
    else if cameras[scan[0]].roomId == roomId then Some(scan[0])
    else FirstCameraIn(cameras, scan[1..], roomId)
  }

  /** A new stream row: the playlist path of the camera, the hashed password;
      status and `current` take their schema defaults. */
  function NewOnline(cameraId: Id, hashed: string): CameraOnline {
    CameraOnline(cameraId, OFFLINE, false, None, "/live/" + cameraId + "/stream.m3u8", hashed)
  }

  /** The rows a streaming booking writes after the service: one stream row
      for the first camera of the room, or a 409 when the room has none
      (the service row stays). */
  function OpenStream(t: Tables, b: Booking, cameraScan: seq<Id>, onlineId: Id, hashed: string): Option<Tables>
    requires ScanOf(cameraScan, t.cameras)
  {
    var camera := FirstCameraIn(t.cameras, cameraScan, b.roomId);
    if camera.None? then None
    else Some(t.(onlines := t.onlines[onlineId := NewOnline(camera.value, hashed)]))
  }

  /** `create`, with the envelope of a booking without streaming returned
      (see `CreateAsWritten`). The password is drawn and hashed outside:
      `password` and `hashed` are inputs. */
  function CreateOutcome(t: Tables, b: Booking, cameraScan: seq<Id>, id: Id, onlineId: Id, password: string, hashed: string): (o: Outcome<ServiceData>)
    requires ScanOf(cameraScan, t.cameras) && id !in t.services && onlineId !in t.onlines
    ensures !o.response.NoBody?
    ensures o.response.IsError(NOT_FOUND) <==> !RoomOpen(t, b.roomId)
    ensures o.response.IsError(CONFLICT) <==>
      RoomOpen(t, b.roomId) && (Conflicting(t.services, b, None) || (b.hasStreaming && CamerasIn(t.cameras, b.roomId) == {}))
    ensures o.response.IsError(NOT_FOUND) || (o.response.IsError(CONFLICT) && Conflicting(t.services, b, None)) ==> o.tables == t
    ensures RoomOpen(t, b.roomId) && !Conflicting(t.services, b, None) ==>
      id in o.tables.services && o.tables.services[id] == Service(b.roomId, b.hasStreaming, b.startAt, b.endAt, false)
      && o.tables.services == t.services[id := Service(b.roomId, b.hasStreaming, b.startAt, b.endAt, false)]
    ensures o.response.body.ok <==> RoomOpen(t, b.roomId) && !Conflicting(t.services, b, None)
                                    && (b.hasStreaming ==> CamerasIn(t.cameras, b.roomId) != {})
    ensures o.response.body.ok ==> o.response.Returned? && o.response.body.status == CREATED
    ensures o.response.body.ok && b.hasStreaming ==>
      && o.response.body.data == Some([Booked(id, Service(b.roomId, b.hasStreaming, b.startAt, b.endAt, false)), Credential(password)])
      && onlineId in o.tables.onlines && o.tables.onlines[onlineId].cameraId in CamerasIn(t.cameras, b.roomId)
      && o.tables.onlines == t.onlines[onlineId := NewOnline(o.tables.onlines[onlineId].cameraId, hashed)]
    ensures o.response.body.ok && !b.hasStreaming ==>
      o.response.body.data == Some([Booked(id, Service(b.roomId, b.hasStreaming, b.startAt, b.endAt, false))])
      && o.tables.onlines == t.onlines
    ensures !o.response.Returned? ==> o.response.Thrown? && o.response.code == o.response.body.status
    ensures o.tables.cameras == t.cameras && o.tables.rooms == t.rooms && o.tables.mails == t.mails
  {
    if !RoomOpen(t, b.roomId) then
      Outcome(Fail(NOT_FOUND, Keyed(ErrorCreating, ROOM_MISSING)), t)
    else if Conflicting(t.services, b, None) then
      Outcome(Fail(CONFLICT, Keyed(ErrorCreating, OVERLAP)), t)
    else
      var service := Service(b.roomId, b.hasStreaming, b.startAt, b.endAt, false);
      var t1 := t.(services := t.services[id := service]);
      if !b.hasStreaming then
        Outcome(Success(CREATED, Some(Key(SuccessfullyCreated)), Some([Booked(id, service)]), None, Objet), t1)
      else
        var t2 := OpenStream(t1, b, cameraScan, onlineId, hashed);
        if t2.None? then
          Outcome(Fail(CONFLICT, Keyed(ErrorCreating, NO_CAMERA)), t1)
        else
          Outcome(Success(CREATED, Some(Key(SuccessfullyCreated)), Some([Booked(id, service), Credential(password)]), None, Objet),
                  t2.value)
  }

  /** A booking accepted by `create` keeps the bookings of every room free of
      overlaps. */
  lemma CreateKeepsNoOverlap(t: Tables, b: Booking, cameraScan: seq<Id>, id: Id, onlineId: Id, password: string, hashed: string)
    requires ScanOf(cameraScan, t.cameras) && id !in t.services && onlineId !in t.onlines
    requires NoOverlap(t.services)
    ensures NoOverlap(CreateOutcome(t, b, cameraScan, id, onlineId, password, hashed).tables.services)
  {
    if RoomOpen(t, b.roomId) && !Conflicting(t.services, b, None) {
      var s := Service(b.roomId, b.hasStreaming, b.startAt, b.endAt, false);
      var services := t.services[id := s];
      forall x, y | x in services && y in services && x != y ensures !Overlaps(services[x], BookingOf(services[y])) {
        if x == id {
          OverlapsSymmetric(s, t.services[y]);
        }
      }
    }
  }

  /** `create` as written: without streaming, the success envelope is built
      but not returned, so the request answers with no body at all. */
  function CreateAsWritten(t: Tables, b: Booking, cameraScan: seq<Id>, id: Id, onlineId: Id, password: string, hashed: string): (o: Outcome<ServiceData>)
    requires ScanOf(cameraScan, t.cameras) && id !in t.services && onlineId !in t.onlines
    ensures o.tables == CreateOutcome(t, b, cameraScan, id, onlineId, password, hashed).tables
    ensures o.response.NoBody? <==> CreateOutcome(t, b, cameraScan, id, onlineId, password, hashed).response.body.ok && !b.hasStreaming
  {
    var o := CreateOutcome(t, b, cameraScan, id, onlineId, password, hashed);
    if o.response.body.ok && !b.hasStreaming then Outcome(NoBody, o.tables) else o
  }

  /** The discrepancy on a concrete booking without streaming: the row is
      written, yet the caller gets no envelope and no id. */
  lemma CreateDropsEnvelope()
    ensures var t := Tables(map[], map["r" := Room("Sala", true, "h")], map[], map[], map[], map[], map[], []);
      var b := Booking("r", false, 10, 20);
      && CreateAsWritten(t, b, [], "s", "o", "", "").response.NoBody?
      && "s" in CreateAsWritten(t, b, [], "s", "o", "", "").tables.services
      && CreateOutcome(t, b, [], "s", "o", "", "").response.Returned?
      && CreateOutcome(t, b, [], "s", "o", "", "").response.body.data
           == Some([Booked("s", Service("r", false, 10, 20, false))])
  {
    var t := Tables(map[], map["r" := Room("Sala", true, "h")], map[], map[], map[], map[], map[], []);
    var b := Booking("r", false, 10, 20);
    assert !Conflicting(t.services, b, None);
  }

  /** `update`, with the success envelopes returned (see `UpdateAsWritten`).
      The service's `current` flag is kept. */
  function UpdateOutcome(t: Tables, id: Id, b: Booking, cameraScan: seq<Id>, onlineId: Id, password: string, hashed: string): (o: Outcome<ServiceData>)
    requires ScanOf(cameraScan, t.cameras) && onlineId !in t.onlines
    ensures !o.response.NoBody?
    ensures o.response.IsError(NOT_FOUND) <==> id !in t.services || !RoomOpen(t, b.roomId)
    ensures o.response.IsError(CONFLICT) <==>
      id in t.services && RoomOpen(t, b.roomId)
      && (Conflicting(t.services, b, Some(id)) || (b.hasStreaming && CamerasIn(t.cameras, b.roomId) == {}))
    ensures o.response.IsError(NOT_FOUND) || (o.response.IsError(CONFLICT) && Conflicting(t.services, b, Some(id))) ==> o.tables == t
    ensures id in t.services && RoomOpen(t, b.roomId) && !Conflicting(t.services, b, Some(id)) ==>
      o.tables.services == t.services[id := Service(b.roomId, b.hasStreaming, b.startAt, b.endAt, t.services[id].current)]
    ensures o.response.body.ok <==> id in t.services && RoomOpen(t, b.roomId) && !Conflicting(t.services, b, Some(id))
                                    && (b.hasStreaming ==> CamerasIn(t.cameras, b.roomId) != {})
    ensures o.response.body.ok ==> o.response.Returned? && o.response.body.status == OK
    ensures o.response.body.ok && b.hasStreaming ==>
      && o.response.body.data == Some([Booked(id, Service(b.roomId, b.hasStreaming, b.startAt, b.endAt, t.services[id].current)), Credential(password)])
      && onlineId in o.tables.onlines && o.tables.onlines[onlineId].cameraId in CamerasIn(t.cameras, b.roomId)
      && o.tables.onlines == t.onlines[onlineId := NewOnline(o.tables.onlines[onlineId].cameraId, hashed)]
    ensures o.response.body.ok && !b.hasStreaming ==> o.tables.onlines == t.onlines
    ensures !o.response.Returned? ==> o.response.Thrown? && o.response.code == o.response.body.status
    ensures o.tables.cameras == t.cameras && o.tables.rooms == t.rooms && o.tables.mails == t.mails
  {
    if id !in t.services then
      Outcome(Fail(NOT_FOUND, Keyed(ErrorUpdating, SERVICE_MISSING)), t)
    else if !RoomOpen(t, b.roomId) then
      Outcome(Fail(NOT_FOUND, Keyed(ErrorUpdating, ROOM_MISSING)), t)
    else if Conflicting(t.services, b, Some(id)) then
      Outcome(Fail(CONFLICT, Keyed(ErrorUpdating, OVERLAP)), t)
    else
      var service := Service(b.roomId, b.hasStreaming, b.startAt, b.endAt, t.services[id].current);
      var t1 := t.(services := t.services[id := service]);
      if !b.hasStreaming then
        Outcome(Success(OK, Some(Key(SuccessfullyUpdated)), Some([Booked(id, service)]), None, Objet), t1)
      else
        var t2 := OpenStream(t1, b, cameraScan, onlineId, hashed);
        if t2.None? then
          Outcome(Fail(CONFLICT, Keyed(ErrorUpdating, NO_CAMERA)), t1)
        else
          Outcome(Success(OK, Some(Key(SuccessfullyUpdated)), Some([Booked(id, service), Credential(password)]), None, Objet),
                  t2.value)
  }

  /** An accepted update keeps the bookings free of overlaps, and re-saving
      a service's own window never conflicts with itself. */
  lemma UpdateKeepsNoOverlap(t: Tables, id: Id, b: Booking, cameraScan: seq<Id>, onlineId: Id, password: string, hashed: string)
    requires ScanOf(cameraScan, t.cameras) && onlineId !in t.onlines
    requires NoOverlap(t.services)
    ensures NoOverlap(UpdateOutcome(t, id, b, cameraScan, onlineId, password, hashed).tables.services)
    ensures id in t.services && b == BookingOf(t.services[id]) ==> !Conflicting(t.services, b, Some(id))
  {
    if id in t.services && RoomOpen(t, b.roomId) && !Conflicting(t.services, b, Some(id)) {
      var s := Service(b.roomId, b.hasStreaming, b.startAt, b.endAt, t.services[id].current);
      var services := t.services[id := s];
      forall x, y | x in services && y in services && x != y ensures !Overlaps(services[x], BookingOf(services[y])) {
        if x == id {
          OverlapsSymmetric(s, t.services[y]);
        }
      }
    }
  }

  /** Every successful streaming update opens one more stream row: calling
      it twice leaves two rows where there were none. */
  lemma UpdateAddsStreamEachTime(t: Tables, id: Id, b: Booking, cameraScan: seq<Id>, onlineId: Id, password: string, hashed: string)
    requires ScanOf(cameraScan, t.cameras) && onlineId !in t.onlines
    requires UpdateOutcome(t, id, b, cameraScan, onlineId, password, hashed).response.body.ok && b.hasStreaming
    ensures |UpdateOutcome(t, id, b, cameraScan, onlineId, password, hashed).tables.onlines.Keys| == |t.onlines.Keys| + 1
  {
    var o := UpdateOutcome(t, id, b, cameraScan, onlineId, password, hashed);
    assert o.tables.onlines.Keys == t.onlines.Keys + {onlineId};
  }

  /** `update` as written: neither success envelope is returned, so every
      successful update answers with no body. */
  function UpdateAsWritten(t: Tables, id: Id, b: Booking, cameraScan: seq<Id>, onlineId: Id, password: string, hashed: string): (o: Outcome<ServiceData>)
    requires ScanOf(cameraScan, t.cameras) && onlineId !in t.onlines
    ensures o.tables == UpdateOutcome(t, id, b, cameraScan, onlineId, password, hashed).tables
    ensures o.response.NoBody? <==> UpdateOutcome(t, id, b, cameraScan, onlineId, password, hashed).response.body.ok
  {
    var o := UpdateOutcome(t, id, b, cameraScan, onlineId, password, hashed);
    if o.response.body.ok then Outcome(NoBody, o.tables) else o
  }

  /** The discrepancy on a concrete streaming update: the stream row is
      written, yet the caller never sees the one-time password. */
  lemma UpdateDropsPassword()
    ensures var t := Tables(map[], map["r" := Room("Sala", true, "h")],
                            map["c" := Camera("Norte", true, false, "r", None)], map[], map[],
                            map["s" := Service("r", true, 10, 20, false)], map[], []);
      var b := Booking("r", true, 10, 30);
      && UpdateAsWritten(t, "s", b, ["c"], "o", "1234", "h1234").response.NoBody?
      && "o" in UpdateAsWritten(t, "s", b, ["c"], "o", "1234", "h1234").tables.onlines
      && UpdateOutcome(t, "s", b, ["c"], "o", "1234", "h1234").response.body.data
           == Some([Booked("s", Service("r", true, 10, 30, false)), Credential("1234")])
  {
    var t := Tables(map[], map["r" := Room("Sala", true, "h")],
                    map["c" := Camera("Norte", true, false, "r", None)], map[], map[],
                    map["s" := Service("r", true, 10, 20, false)], map[], []);
    var b := Booking("r", true, 10, 30);
    assert !Conflicting(t.services, b, Some("s"));
    assert "c" in CamerasIn(t.cameras, "r");
  }

  /** `service.findFirst` for a service of the room, other than `except`,
      whose window overlaps the booking: the services in scan order, up to
      the first that does. */
  method FindConflict(db: Database, scan: seq<Id>, b: Booking, except: Option<Id>) returns (found: bool)
    requires ScanOf(scan, db.services)
    ensures found <==> Conflicting(db.services, b, except)
  {
    var i := 0;
    while i < |scan|
      invariant 0 <= i <= |scan|
      invariant forall j :: 0 <= j < i ==> !(Some(scan[j]) != except && Overlaps(db.services[scan[j]], b))
    {
      if Some(scan[i]) != except && Overlaps(db.services[scan[i]], b) {
        return true;
      }
      i := i + 1;
    }
    forall k | k in db.services
      ensures !(Some(k) != except && Overlaps(db.services[k], b))
    {
      var j :| 0 <= j < |scan| && scan[j] == k;
    }
    return false;
  }

  /** `camera.findFirst({where: {roomId}})` over the cameras in scan order. */
  method FindCamera(db: Database, scan: seq<Id>, roomId: Id) returns (camera: Option<Id>)
    requires ScanOf(scan, db.cameras)
    ensures camera == FirstCameraIn(db.cameras, scan, roomId)
  {
    var i := 0;
    while i < |scan|
      invariant 0 <= i <= |scan|
      invariant FirstCameraIn(db.cameras, scan, roomId) == FirstCameraIn(db.cameras, scan[i..], roomId)
    {
      if db.cameras[scan[i]].roomId == roomId {
        return Some(scan[i]);
      }
      assert scan[i..][1..] == scan[i + 1..];
      i := i + 1;
    }
    return None;
  }

  method Create(db: Database, b: Booking, serviceScan: seq<Id>, cameraScan: seq<Id>, id: Id, onlineId: Id,
                password: string, hashed: string)
    returns (r: Response<ServiceData>)
    requires ScanOf(serviceScan, db.services)
    requires ScanOf(cameraScan, db.cameras) && id !in db.services && onlineId !in db.onlines
    modifies db
    ensures Outcome(r, db.Snapshot()) == CreateOutcome(old(db.Snapshot()), b, cameraScan, id, onlineId, password, hashed)
  {
    if !(b.roomId in db.rooms && db.rooms[b.roomId].active) {
      return Fail(NOT_FOUND, Keyed(ErrorCreating, ROOM_MISSING));
    }
    var conflict := FindConflict(db, serviceScan, b, None);
    if conflict {
      return Fail(CONFLICT, Keyed(ErrorCreating, OVERLAP));
    }
    var service := Service(b.roomId, b.hasStreaming, b.startAt, b.endAt, false);
    db.services := db.services[id := service];
    if !b.hasStreaming {
      return Success(CREATED, Some(Key(SuccessfullyCreated)), Some([Booked(id, service)]), None, Objet);
    }
    var camera := FindCamera(db, cameraScan, b.roomId);
    if camera.None? {
      return Fail(CONFLICT, Keyed(ErrorCreating, NO_CAMERA));
    }
    db.onlines := db.onlines[onlineId := NewOnline(camera.value, hashed)];
    r := Success(CREATED, Some(Key(SuccessfullyCreated)), Some([Booked(id, service), Credential(password)]), None, Objet);
  }

  method Update(db: Database, id: Id, b: Booking, serviceScan: seq<Id>, cameraScan: seq<Id>, onlineId: Id,
                password: string, hashed: string)
    returns (r: Response<ServiceData>)
    requires ScanOf(serviceScan, db.services)
    requires ScanOf(cameraScan, db.cameras) && onlineId !in db.onlines
    modifies db
    ensures Outcome(r, db.Snapshot()) == UpdateOutcome(old(db.Snapshot()), id, b, cameraScan, onlineId, password, hashed)
  {
    if id !in db.services {
      return Fail(NOT_FOUND, Keyed(ErrorUpdating, SERVICE_MISSING));
    }
    if !(b.roomId in db.rooms && db.rooms[b.roomId].active) {
      return Fail(NOT_FOUND, Keyed(ErrorUpdating, ROOM_MISSING));
    }
    var conflict := FindConflict(db, serviceScan, b, Some(id));
    if conflict {
      return Fail(CONFLICT, Keyed(ErrorUpdating, OVERLAP));
    }
    var service := Service(b.roomId, b.hasStreaming, b.startAt, b.endAt, db.services[id].current);
    db.services := db.services[id := service];
    if !b.hasStreaming {
      return Success(OK, Some(Key(SuccessfullyUpdated)), Some([Booked(id, service)]), None, Objet);
    }
    var camera := FindCamera(db, cameraScan, b.roomId);
    if camera.None? {
      return Fail(CONFLICT, Keyed(ErrorUpdating, NO_CAMERA));
    }
    db.onlines := db.onlines[onlineId := NewOnline(camera.value, hashed)];
    r := Success(OK, Some(Key(SuccessfullyUpdated)), Some([Booked(id, service), Credential(password)]), None, Objet);
  }
}
