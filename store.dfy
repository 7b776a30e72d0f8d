/** The relational store the services read and write, one map per table keyed
    by the row id, plus the log of alert e-mails sent. Prisma's single-row
    lookups become map lookups and existence tests; a `$transaction` is
    all-or-nothing. */
module Store {
  import opened Optional
  import opened Envelope

  type Id = string

  datatype Headquarter = Headquarter(name: string, active: bool)

  datatype Room = Room(name: string, active: bool, headquarterId: Id)

  /** Credentials and address of a camera; ports are stored as the decimal
      text of the numbers received. */
  datatype AuthCamera = AuthCamera(
    userName: string, password: string, ipAddress: string,
    rtspPort: string, endPointRtsp: string, httpPort: string,
    endPointImagePreview: Option<string>)

  datatype Camera = Camera(name: string, active: bool, hasPTZ: bool, roomId: Id, authCameraId: Option<Id>)

  datatype Movement = Movement(name: string, order: int, endPoint: string, cameraId: Id)

  /** A booking of a room from `startAt` to `endAt` (instants as integers). */
  datatype Service = Service(roomId: Id, hasStreaming: bool, startAt: int, endAt: int, current: bool)

  datatype OnlineStatus = ONLINE | OFFLINE | FAIL

  /** One activation instance of a camera's stream. */
  datatype CameraOnline = CameraOnline(
    cameraId: Id, status: OnlineStatus, current: bool,
    descriptionStatus: Option<string>, endPointStreaming: string, password: string)

  /** An alert e-mail: its subject, subtitle and description line. */
  datatype Mail = Mail(subject: string, subtitle: string, description: string)

  datatype Tables = Tables(
    headquarters: map<Id, Headquarter>,
    rooms: map<Id, Room>,
    cameras: map<Id, Camera>,
    auths: map<Id, AuthCamera>,
    movements: map<Id, Movement>,
    services: map<Id, Service>,
    onlines: map<Id, CameraOnline>,
    mails: seq<Mail>)

  /** What an operation ends with: its response and the tables after it. */
  datatype Outcome<D> = Outcome(response: Response<D>, tables: Tables)

  /** `scan` lists every key of `m` exactly once: the order in which the
      database hands out rows when a query names no order. */
  predicate ScanOf<V>(scan: seq<Id>, m: map<Id, V>) {
    && (forall i, j :: 0 <= i < j < |scan| ==> scan[i] != scan[j])
    && (forall k :: k in scan ==> k in m)
    && (forall k :: k in m ==> k in scan)
  }

  /** The ids of the cameras placed in room `roomId`. */
  function CamerasIn(cameras: map<Id, Camera>, roomId: Id): (r: set<Id>)
    ensures forall c :: c in r <==> c in cameras && cameras[c].roomId == roomId
  {
    set c | c in cameras && cameras[c].roomId == roomId
  }

  /** The database as the services see it: the tables, updated in place. */
  class Database {
    var headquarters: map<Id, Headquarter>
    var rooms: map<Id, Room>
    var cameras: map<Id, Camera>
    var auths: map<Id, AuthCamera>
    var movements: map<Id, Movement>
    var services: map<Id, Service>
    var onlines: map<Id, CameraOnline>
    var mails: seq<Mail>

    function Snapshot(): Tables
      reads this
    {
      Tables(headquarters, rooms, cameras, auths, movements, services, onlines, mails)
    }

    constructor (t: Tables)
      ensures Snapshot() == t
    {
      headquarters, rooms, cameras, auths := t.headquarters, t.rooms, t.cameras, t.auths;
      movements, services, onlines, mails := t.movements, t.services, t.onlines, t.mails;
    }
  }
}
