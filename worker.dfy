/** The streaming reconciliation tick
    (src/modules/backgroundWorkerServices/backgroundworkerStraming.service.ts):
    every few seconds, switch on the streaming bookings whose window holds
    `now` and put the stream rows of their room's cameras ONLINE; then switch
    off the ones whose window has ended and put those rows OFFLINE. Each
    phase is one transaction; a failure is reported by one alert mail. */
module Worker {
  import opened Optional
  import opened Store

  datatype Phase = Up | Down

  const ALERT_SUBJECT: string := "Notificación de Fallo del segundo plano de activar o bajar servicios online"
  const ALERT_SUBTITLE: string := "El servicio en segundo plano de los online ha fallado"
  /** What the runtime says when a selected service's room is gone. */
  const ROOM_NULL: string := "TypeError: Cannot read properties of null (reading 'cameras')"

  /** The activation query: `startAt <= now`, `endAt >= now`, streaming, not current. */
  predicate Due(s: Service, now: int) {
    s.startAt <= now && s.endAt >= now && s.hasStreaming && !s.current
  }

  /** The deactivation query: `endAt <= now`, streaming, current. */
  predicate Ended(s: Service, now: int) {
    s.endAt <= now && s.hasStreaming && s.current
  }

  predicate Selected(s: Service, now: int, p: Phase) {
    match p
    case Up => Due(s, now)
    case Down => Ended(s, now)
  }

  function StatusOf(p: Phase): OnlineStatus {
    if p == Up then ONLINE else OFFLINE
  }

  /** The rooms of the services a phase selects. */
  function SelectedRooms(services: map<Id, Service>, now: int, p: Phase): set<Id> {
    set k | k in services && Selected(services[k], now, p) :: services[k].roomId
  }

  /** The cameras placed in one of `rooms`. */
  function RoomCameras(cameras: map<Id, Camera>, rooms: set<Id>): set<Id> {
    set c | c in cameras && cameras[c].roomId in rooms
  }

  /** `cameraOnline.updateMany` over the rows of the cameras in `hit`. */
  function Lit(onlines: map<Id, CameraOnline>, hit: set<Id>, status: OnlineStatus, current: bool): (r: map<Id, CameraOnline>)
    ensures r.Keys == onlines.Keys
  {
    map o | o in onlines :: if onlines[o].cameraId in hit then onlines[o].(status := status, current := current) else onlines[o]
  }

  /** The services of `done` a phase selects, with `current` flipped. */
  function Flip(services: map<Id, Service>, now: int, p: Phase, done: set<Id>): (r: map<Id, Service>)
    ensures r.Keys == services.Keys
  {
    map k | k in services :: if k in done && Selected(services[k], now, p) then services[k].(current := p == Up) else services[k]
  }

  /** What a phase's transaction commits. */
  function Apply(t: Tables, now: int, p: Phase): (r: Tables)
    ensures r.services.Keys == t.services.Keys
    ensures r.cameras == t.cameras && r.rooms == t.rooms && r.mails == t.mails
    ensures r == t.(services := r.services, onlines := r.onlines)
  {
    t.(services := Flip(t.services, now, p, t.services.Keys),
       onlines := Lit(t.onlines, RoomCameras(t.cameras, SelectedRooms(t.services, now, p)), StatusOf(p), p == Up))
  }

  /** A phase fails when a service it selects points at a room that is gone,
      or when the database itself fails (`fault`). */
  function PhaseFailure(t: Tables, now: int, p: Phase, fault: Option<string>): Option<string> {
    if fault.Some? then fault
    else if RoomGone(t.services, t.rooms, now, p) then Some(ROOM_NULL)
    else None
  }

  /** A service the phase selects points at a room that is gone. */
  predicate RoomGone(services: map<Id, Service>, rooms: map<Id, Room>, now: int, p: Phase) {
    exists k :: k in services && Selected(services[k], now, p) && services[k].roomId !in rooms
  }

  function Alert(error: string): Mail {
    Mail(ALERT_SUBJECT, ALERT_SUBTITLE, "Mensaje: " + error)
  }

  /** `handleCron`: activation, then deactivation; the first failure ends the
      tick with one alert mail, leaving what its phase would have written
      unwritten. */
  function Tick(t: Tables, now: int, upFault: Option<string>, downFault: Option<string>): (r: Tables)
    ensures PhaseFailure(t, now, Up, upFault).Some? ==> r == t.(mails := t.mails + [Alert(PhaseFailure(t, now, Up, upFault).value)])
    ensures PhaseFailure(t, now, Up, upFault).None? && PhaseFailure(Apply(t, now, Up), now, Down, downFault).Some? ==>
      r == Apply(t, now, Up).(mails := t.mails + [Alert(PhaseFailure(Apply(t, now, Up), now, Down, downFault).value)])
    ensures |t.mails| <= |r.mails| <= |t.mails| + 1 && r.mails[..|t.mails|] == t.mails
    ensures r.cameras == t.cameras && r.rooms == t.rooms
  {
    var up := PhaseFailure(t, now, Up, upFault);
    if up.Some? then t.(mails := t.mails + [Alert(up.value)])
    else
      var t1 := Apply(t, now, Up);
      var down := PhaseFailure(t1, now, Down, downFault);
      if down.Some? then t1.(mails := t.mails + [Alert(down.value)])
      else Apply(t1, now, Down)
  }

  /** A tick in which no phase fails. */
  predicate Completes(t: Tables, now: int) {
    PhaseFailure(t, now, Up, None).None? && PhaseFailure(Apply(t, now, Up), now, Down, None).None?
  }

  // ---------------------------------------------------------------------
  // What each phase does
  // ---------------------------------------------------------------------

  /** Activation switches on exactly the streaming services whose window
      holds `now`, both ends included, and changes nothing else in them. */
  lemma ActivationSelects(t: Tables, now: int, k: Id)
    requires k in t.services
    ensures var s := t.services[k]; var s' := Apply(t, now, Up).services[k];
      && s'.(current := s.current) == s
      && (s'.current <==> s.current || (s.hasStreaming && s.startAt <= now <= s.endAt))
  {
  }

  /** Deactivation switches off exactly the current streaming services whose
      window has ended. */
  lemma DeactivationSelects(t: Tables, now: int, k: Id)
    requires k in t.services
    ensures var s := t.services[k]; var s' := Apply(t, now, Down).services[k];
      && s'.(current := s.current) == s
      && (s'.current <==> s.current && !(s.hasStreaming && s.endAt <= now))
  {
  }

  /** The camera sits in the room of a service the phase selects. */
  predicate HitBy(t: Tables, now: int, p: Phase, camera: Id) {
    exists k :: k in t.services && Selected(t.services[k], now, p)
      && camera in t.cameras && t.cameras[camera].roomId == t.services[k].roomId
  }

  /** Activation puts every row of every camera in the room of a switched-on
      service ONLINE and current, old rows included; deactivation puts those
      of a switched-off service OFFLINE and not current; every other row is
      left alone. */
  lemma PhaseRows(t: Tables, now: int, p: Phase, o: Id)
    requires o in t.onlines
    ensures HitBy(t, now, p, t.onlines[o].cameraId) ==>
      Apply(t, now, p).onlines[o] == t.onlines[o].(status := StatusOf(p), current := p == Up)
    ensures !HitBy(t, now, p, t.onlines[o].cameraId) ==> Apply(t, now, p).onlines[o] == t.onlines[o]
  {
    var cam := t.onlines[o].cameraId;
    if HitBy(t, now, p, cam) {
      var k :| k in t.services && Selected(t.services[k], now, p)
        && cam in t.cameras && t.cameras[cam].roomId == t.services[k].roomId;
      assert t.services[k].roomId in SelectedRooms(t.services, now, p);
    }
  }

  // ---------------------------------------------------------------------
  // What a tick does
  // ---------------------------------------------------------------------

  /** `current` of a service after a completed tick. */
  function CurrentAfter(s: Service, now: int): bool {
    if s.hasStreaming then (s.current || s.startAt <= now) && now < s.endAt else s.current
  }

  lemma ServiceAfterTick(t: Tables, now: int, k: Id)
    requires Completes(t, now) && k in t.services
    ensures Tick(t, now, None, None).services[k] == t.services[k].(current := CurrentAfter(t.services[k], now))
  {
    ActivationSelects(t, now, k);
    DeactivationSelects(Apply(t, now, Up), now, k);
  }

  /** Bookings without streaming are never touched by the tick. */
  lemma NonStreamingUntouched(t: Tables, now: int, upFault: Option<string>, downFault: Option<string>, k: Id)
    requires k in t.services && !t.services[k].hasStreaming
    ensures k in Tick(t, now, upFault, downFault).services
    ensures Tick(t, now, upFault, downFault).services[k] == t.services[k]
  {
  }

  /** After a completed tick no streaming booking whose window has ended is
      still current. */
  lemma NoStaleCurrent(t: Tables, now: int)
    requires Completes(t, now)
    ensures var t' := Tick(t, now, None, None);
      forall k :: k in t'.services && t'.services[k].hasStreaming && t'.services[k].endAt <= now ==> !t'.services[k].current
  {
    forall k | k in t.services {
      ServiceAfterTick(t, now, k);
    }
  }

  /** A streaming booking whose window ends exactly now is switched on and
      off within one tick: it ends not current, and the rows of its room's
      cameras end OFFLINE. */
  lemma OnAndOffInOneTick(t: Tables, now: int, k: Id, o: Id)
    requires Completes(t, now) && k in t.services
    requires t.services[k].hasStreaming && !t.services[k].current && t.services[k].startAt <= now && t.services[k].endAt == now
    requires o in t.onlines && t.onlines[o].cameraId in t.cameras && t.cameras[t.onlines[o].cameraId].roomId == t.services[k].roomId
    ensures !Tick(t, now, None, None).services[k].current
    ensures Tick(t, now, None, None).onlines[o] == t.onlines[o].(status := OFFLINE, current := false)
  {
    ServiceAfterTick(t, now, k);
    var t1 := Apply(t, now, Up);
    ActivationSelects(t, now, k);
    PhaseRows(t, now, Up, o);
    PhaseRows(t1, now, Down, o);
    assert Ended(t1.services[k], now);
  }

  /** One booking of a room ends and the next one starts between two ticks:
      the new booking ends the tick current, but the shared camera's rows end
      OFFLINE, since deactivation writes last. */
  lemma BackToBackLeavesOffline(t: Tables, now: int, a: Id, b: Id, o: Id)
    requires Completes(t, now) && a in t.services && b in t.services
    requires t.services[a].hasStreaming && t.services[a].current && t.services[a].endAt <= now
    requires t.services[b].hasStreaming && !t.services[b].current && t.services[b].startAt <= now < t.services[b].endAt
    requires t.services[a].roomId == t.services[b].roomId
    requires o in t.onlines && t.onlines[o].cameraId in t.cameras && t.cameras[t.onlines[o].cameraId].roomId == t.services[a].roomId
    ensures Tick(t, now, None, None).services[b].current
    ensures Tick(t, now, None, None).onlines[o].status == OFFLINE && !Tick(t, now, None, None).onlines[o].current
  {
    ServiceAfterTick(t, now, b);
    var t1 := Apply(t, now, Up);
    ActivationSelects(t, now, a);
    PhaseRows(t1, now, Down, o);
    assert Ended(t1.services[a], now);
  }

  /** The rows after a completed tick. */
  lemma RowAfterTick(t: Tables, now: int, o: Id)
    requires Completes(t, now) && o in t.onlines
    ensures var row := t.onlines[o]; var row' := Tick(t, now, None, None).onlines[o];
      && (EndedAfterUp(t, now, row.cameraId) ==> row' == row.(status := OFFLINE, current := false))
      && (!EndedAfterUp(t, now, row.cameraId) && HitBy(t, now, Up, row.cameraId) ==> row' == row.(status := ONLINE, current := true))
      && (!EndedAfterUp(t, now, row.cameraId) && !HitBy(t, now, Up, row.cameraId) ==> row' == row)
  {
    var t1 := Apply(t, now, Up);
    PhaseRows(t, now, Up, o);
    PhaseRows(t1, now, Down, o);
    var row := t.onlines[o];
    if EndedAfterUp(t, now, row.cameraId) {
      var k :| k in t.services && EndsInTick(t.services[k], now) && row.cameraId in t.cameras
               && t.cameras[row.cameraId].roomId == t.services[k].roomId;
      ActivationSelects(t, now, k);
      assert Ended(t1.services[k], now);
    } else {
      forall k | k in t1.services && Ended(t1.services[k], now)
        ensures !(row.cameraId in t.cameras && t.cameras[row.cameraId].roomId == t1.services[k].roomId)
      {
        ActivationSelects(t, now, k);
        assert EndsInTick(t.services[k], now);
      }
    }
  }

  /** A streaming booking that activation leaves current with an ended window. */
  predicate EndsInTick(s: Service, now: int) {
    s.hasStreaming && s.endAt <= now && (s.current || (s.startAt <= now && s.endAt == now))
  }

  /** The camera's room holds a booking the tick switches off. */
  predicate EndedAfterUp(t: Tables, now: int, camera: Id) {
    exists k :: k in t.services && EndsInTick(t.services[k], now)
      && camera in t.cameras && t.cameras[camera].roomId == t.services[k].roomId
  }

  /** A second tick at the same instant changes nothing. */
  lemma TickIdempotent(t: Tables, now: int)
    requires Completes(t, now)
    ensures Completes(Tick(t, now, None, None), now)
    ensures Tick(Tick(t, now, None, None), now, None, None) == Tick(t, now, None, None)
  {
    SecondTickCompletes(t, now);
    ServicesAgain(t, now);
    RowsAgain(t, now);
  }

  lemma ServicesAgain(t: Tables, now: int)
    requires Completes(t, now) && Completes(Tick(t, now, None, None), now)
    ensures Tick(Tick(t, now, None, None), now, None, None).services == Tick(t, now, None, None).services
  {
    var t1 := Tick(t, now, None, None);
    forall k | k in t1.services ensures Tick(t1, now, None, None).services[k] == t1.services[k] {
      ServiceAfterTick(t1, now, k);
    }
  }

  lemma RowsAgain(t: Tables, now: int)
    requires Completes(t, now) && Completes(Tick(t, now, None, None), now)
    ensures Tick(Tick(t, now, None, None), now, None, None).onlines == Tick(t, now, None, None).onlines
  {
    var t1 := Tick(t, now, None, None);
    forall o | o in t1.onlines ensures Tick(t1, now, None, None).onlines[o] == t1.onlines[o] {
      RowAgain(t, now, o);
    }
  }

  /** Every booking the second tick selects is one the first switched off. */
  lemma SelectedAgain(t: Tables, now: int, k: Id)
    requires Completes(t, now) && k in t.services
    ensures var s1 := Tick(t, now, None, None).services[k];
      (Due(s1, now) || EndsInTick(s1, now)) ==> EndsInTick(t.services[k], now) && Due(s1, now) && EndsInTick(s1, now)
  {
    ServiceAfterTick(t, now, k);
  }

  /** The second tick writes to a row only what the first left there. */
  lemma RowAgain(t: Tables, now: int, o: Id)
    requires Completes(t, now) && Completes(Tick(t, now, None, None), now)
    requires o in Tick(t, now, None, None).onlines
    ensures Tick(Tick(t, now, None, None), now, None, None).onlines[o] == Tick(t, now, None, None).onlines[o]
  {
    var t1 := Tick(t, now, None, None);
    RowAfterTick(t1, now, o);
    var cam := t1.onlines[o].cameraId;
    if EndedAfterUp(t1, now, cam) {
      var k :| k in t1.services && EndsInTick(t1.services[k], now) && cam in t1.cameras
               && t1.cameras[cam].roomId == t1.services[k].roomId;
      SelectedAgain(t, now, k);
      ServiceAfterTick(t, now, k);
      assert t1.cameras == t.cameras && t1.services[k].roomId == t.services[k].roomId;
      assert EndedAfterUp(t, now, cam);
      RowAfterTick(t, now, o);
    } else if HitBy(t1, now, Up, cam) {
      var k :| k in t1.services && Due(t1.services[k], now) && cam in t1.cameras
               && t1.cameras[cam].roomId == t1.services[k].roomId;
      SelectedAgain(t, now, k);
      assert false;
    }
  }

  lemma SecondTickCompletes(t: Tables, now: int)
    requires Completes(t, now)
    ensures Completes(Tick(t, now, None, None), now)
  {
    var u := Apply(t, now, Up);
    var t1 := Apply(u, now, Down);
    assert t1 == Tick(t, now, None, None);
    forall k | k in t.services ensures t1.services[k] == t.services[k].(current := CurrentAfter(t.services[k], now)) {
      ServiceAfterTick(t, now, k);
    }
    forall k | k in t1.services && Due(t1.services[k], now) ensures t1.services[k].roomId in t1.rooms {
      ActivationSelects(t, now, k);
      assert Ended(u.services[k], now);
    }
    var u1 := Apply(t1, now, Up);
    forall k | k in u1.services && Ended(u1.services[k], now) ensures u1.services[k].roomId in u1.rooms {
      ActivationSelects(t1, now, k);
      ActivationSelects(t, now, k);
      assert Ended(u.services[k], now);
    }
  }

  // ---------------------------------------------------------------------
  // The worker, step by step
  // ---------------------------------------------------------------------

  lemma LitTwice(onlines: map<Id, CameraOnline>, a: set<Id>, b: set<Id>, status: OnlineStatus, current: bool)
    ensures Lit(Lit(onlines, a, status, current), b, status, current) == Lit(onlines, a + b, status, current)
  {
  }

  /** The rooms selected among the services of `done`. */
  function SelectedRoomsIn(services: map<Id, Service>, now: int, p: Phase, done: set<Id>): set<Id> {
    set k | k in services && k in done && Selected(services[k], now, p) :: services[k].roomId
  }

  lemma SelectedRoomsStep(services: map<Id, Service>, now: int, p: Phase, done: set<Id>, k: Id)
    requires k in services
    ensures SelectedRoomsIn(services, now, p, done + {k}) ==
      SelectedRoomsIn(services, now, p, done) + (if Selected(services[k], now, p) then {services[k].roomId} else {})
  {
    var l := SelectedRoomsIn(services, now, p, done + {k});
    var r := SelectedRoomsIn(services, now, p, done) + (if Selected(services[k], now, p) then {services[k].roomId} else {});
    forall x | x in l ensures x in r {
      var j :| j in services && j in done + {k} && Selected(services[j], now, p) && services[j].roomId == x;
    }
  }

  lemma FlipStep(services: map<Id, Service>, now: int, p: Phase, done: set<Id>, k: Id)
    requires k in services
    ensures Flip(services, now, p, done + {k}) ==
      if Selected(services[k], now, p) then Flip(services, now, p, done)[k := services[k].(current := p == Up)]
      else Flip(services, now, p, done)
  {
  }

  lemma RoomCamerasStep(cameras: map<Id, Camera>, rooms: set<Id>, room: Id)
    ensures RoomCameras(cameras, rooms) + RoomCameras(cameras, {room}) == RoomCameras(cameras, rooms + {room})
  {
  }

  /** One `cameraOnline.updateMany` per camera of the room, in scan order. */
  method UpdateRoomRows(cameras: map<Id, Camera>, cameraScan: seq<Id>, onlines: map<Id, CameraOnline>, roomId: Id,
                        status: OnlineStatus, current: bool)
    returns (r: map<Id, CameraOnline>)
    requires ScanOf(cameraScan, cameras)
    ensures r == Lit(onlines, RoomCameras(cameras, {roomId}), status, current)
  {
    r := onlines;
    ghost var hit: set<Id> := {};
    var j := 0;
    while j < |cameraScan|
      invariant 0 <= j <= |cameraScan|
      invariant forall c :: c in hit <==> c in cameraScan[..j] && cameras[c].roomId == roomId
      invariant r == Lit(onlines, hit, status, current)
    {
      var c := cameraScan[j];
      if cameras[c].roomId == roomId {
        LitTwice(onlines, hit, {c}, status, current);
        r := Lit(r, {c}, status, current);
        hit := hit + {c};
      }
      j := j + 1;
    }
    assert hit == RoomCameras(cameras, {roomId});
  }

  /** One selected service inside the transaction: flip it and update the
      rows of its room's cameras. */
  method Visit(selection: map<Id, Service>, cameras: map<Id, Camera>, onlines0: map<Id, CameraOnline>, now: int, p: Phase,
               cameraScan: seq<Id>, ghost done: set<Id>, k: Id, services: map<Id, Service>, onlines: map<Id, CameraOnline>)
    returns (services': map<Id, Service>, onlines': map<Id, CameraOnline>)
    requires ScanOf(cameraScan, cameras) && k in selection
    requires services == Flip(selection, now, p, done)
    requires onlines == Lit(onlines0, RoomCameras(cameras, SelectedRoomsIn(selection, now, p, done)), StatusOf(p), p == Up)
    ensures services' == Flip(selection, now, p, done + {k})
    ensures onlines' == Lit(onlines0, RoomCameras(cameras, SelectedRoomsIn(selection, now, p, done + {k})), StatusOf(p), p == Up)
  {
    var s := selection[k];
    SelectedRoomsStep(selection, now, p, done, k);
    FlipStep(selection, now, p, done, k);
    services', onlines' := services, onlines;
    if Selected(s, now, p) {
      services' := services[k := s.(current := p == Up)];
      ghost var before := SelectedRoomsIn(selection, now, p, done);
      LitTwice(onlines0, RoomCameras(cameras, before), RoomCameras(cameras, {s.roomId}), StatusOf(p), p == Up);
      RoomCamerasStep(cameras, before, s.roomId);
      onlines' := UpdateRoomRows(cameras, cameraScan, onlines, s.roomId, StatusOf(p), p == Up);
    }
  }

  function ElementsOf(s: seq<Id>): set<Id> {
    set x | x in s
  }

  lemma PrefixStep(s: seq<Id>, i: nat)
    requires i < |s|
    ensures ElementsOf(s[..i + 1]) == ElementsOf(s[..i]) + {s[i]}
  {
    assert s[..i + 1] == s[..i] + [s[i]];
  }

  /** Every selected service among `done` has its room. */
  predicate RoomsPresent(selection: map<Id, Service>, rooms: map<Id, Room>, now: int, p: Phase, done: set<Id>) {
    forall k :: k in done ==> k in selection && (Selected(selection[k], now, p) ==> selection[k].roomId in rooms)
  }

  lemma AllVisited(selection: map<Id, Service>, rooms: map<Id, Room>, now: int, p: Phase, scan: seq<Id>)
    requires ScanOf(scan, selection)
    ensures ElementsOf(scan) == selection.Keys
    ensures Flip(selection, now, p, ElementsOf(scan)) == Flip(selection, now, p, selection.Keys)
    ensures SelectedRoomsIn(selection, now, p, ElementsOf(scan)) == SelectedRooms(selection, now, p)
    ensures RoomsPresent(selection, rooms, now, p, ElementsOf(scan)) ==> !RoomGone(selection, rooms, now, p)
  {
    assert ElementsOf(scan) == selection.Keys;
  }

  /** The body of the transaction of `handleUpCameraOnline` or
      `handleDownCameraOnline`: flip each selected service and update the
      rows of each camera of its room, on copies of the tables. */
  method Transact(selection: map<Id, Service>, cameras: map<Id, Camera>, rooms: map<Id, Room>, onlines0: map<Id, CameraOnline>,
                  now: int, p: Phase, scan: seq<Id>, cameraScan: seq<Id>)
    returns (gone: bool, services: map<Id, Service>, onlines: map<Id, CameraOnline>)
    requires ScanOf(scan, selection) && ScanOf(cameraScan, cameras)
    ensures gone <==> RoomGone(selection, rooms, now, p)
    ensures !gone ==> services == Flip(selection, now, p, selection.Keys)
    ensures !gone ==> onlines == Lit(onlines0, RoomCameras(cameras, SelectedRooms(selection, now, p)), StatusOf(p), p == Up)
  {
    services, onlines := selection, onlines0;
    ghost var done: set<Id> := {};
    var i := 0;
    while i < |scan|
      invariant 0 <= i <= |scan|
      invariant done == ElementsOf(scan[..i])
      invariant services == Flip(selection, now, p, done)
      invariant onlines == Lit(onlines0, RoomCameras(cameras, SelectedRoomsIn(selection, now, p, done)), StatusOf(p), p == Up)
      invariant RoomsPresent(selection, rooms, now, p, done)
    {
      var k := scan[i];
      if Selected(selection[k], now, p) && selection[k].roomId !in rooms {
        return true, services, onlines;
      }
      services, onlines := Visit(selection, cameras, onlines0, now, p, cameraScan, done, k, services, onlines);
      PrefixStep(scan, i);
      done := done + {k};
      i := i + 1;
    }
    assert scan[..i] == scan;
    AllVisited(selection, rooms, now, p, scan);
    gone := false;
  }

  /** `handleUpCameraOnline` or `handleDownCameraOnline`: the transaction's
      copies are committed only when it succeeds, so a failure leaves the
      database as it was. */
  method RunPhase(db: Database, now: int, p: Phase, scan: seq<Id>, cameraScan: seq<Id>, fault: Option<string>)
    returns (failure: Option<string>)
    requires ScanOf(scan, db.services) && ScanOf(cameraScan, db.cameras)
    modifies db
    ensures failure == PhaseFailure(old(db.Snapshot()), now, p, fault)
    ensures failure.None? ==> db.Snapshot() == Apply(old(db.Snapshot()), now, p)
    ensures failure.Some? ==> db.Snapshot() == old(db.Snapshot())
  {
    if fault.Some? {
      return fault;
    }
    var gone, services, onlines := Transact(db.services, db.cameras, db.rooms, db.onlines, now, p, scan, cameraScan);
    if gone {
      return Some(ROOM_NULL);
    }
    db.services := services;
    db.onlines := onlines;
    failure := None;
  }

  /** `handleCron`: the two phases in turn; the first failure is mailed. */
  method HandleCron(db: Database, now: int, scan: seq<Id>, cameraScan: seq<Id>, upFault: Option<string>, downFault: Option<string>)
    requires ScanOf(scan, db.services) && ScanOf(cameraScan, db.cameras)
    modifies db
    ensures db.Snapshot() == Tick(old(db.Snapshot()), now, upFault, downFault)
  {
    var failure := RunPhase(db, now, Up, scan, cameraScan, upFault);
    if failure.None? {
      failure := RunPhase(db, now, Down, scan, cameraScan, downFault);
    }
    if failure.Some? {
      db.mails := db.mails + [Alert(failure.value)];
    }
  }
}
