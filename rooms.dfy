/** Rooms (src/modules/rooms/rooms.service.ts): a room belongs to an active
    headquarter, its name is unique within that headquarter, the listing
    answers 404 past the last page, and deletion is refused while cameras or
    a current service refer to the room. Every outcome, success included, is
    thrown as an `HttpException` carrying the envelope. */
module Rooms {
  import opened Optional
  import opened Text
  import opened Envelope
  import opened Store
  import opened Sorting
  import opened Pagination
  import opened Listing
  import Headquarters

  datatype RoomInput = RoomInput(name: string, active: bool, headquarterId: Id)

  /** A row of a response: the stored room, and in listings the name of its
      headquarter (absent when the headquarter row is missing). */
  datatype RoomView =
    | Plain(id: Id, name: string, active: bool, headquarterId: Id)
    | Listed(id: Id, name: string, active: bool, headquarterId: Id, headquarterName: Option<string>)

  const HEADQUARTER_MISSING: string := "\"La sede que se está asociando no existe o está inactiva.\""
  const DUPLICATE_NAME: string := "\"Ya existe una sala con este nombre para esta sede.\""
  const MISSING_ON_UPDATE: string := "\"Sala no encontrada\"."
  const CAMERAS_ATTACHED: string := "\"Existen camaras asociadas a esta sala, primero remueva las cámaras para continuar\"."
  const SERVICE_CURRENT: string := "\"Existe un servicio activo asociado a esta sala, primero remuevalo para continuar\"."

  predicate ActiveHeadquarter(t: Tables, id: Id) {
    id in t.headquarters && t.headquarters[id].active
  }

  /** Some room of headquarter `hq` other than `except` is called `name`. */
  predicate NameTakenIn(rooms: map<Id, Room>, name: string, hq: Id, except: Option<Id>) {
    exists r :: r in rooms && Some(r) != except && rooms[r].name == name && rooms[r].headquarterId == hq
  }

  /** No two rooms of one headquarter share a name. */
  predicate UniqueNamesPerHeadquarter(rooms: map<Id, Room>) {
    forall a, b :: a in rooms && b in rooms && a != b && rooms[a].headquarterId == rooms[b].headquarterId ==>
      rooms[a].name != rooms[b].name
  }

  /** Every camera is placed in an existing room. */
  predicate CamerasReferenceRooms(t: Tables) {
    forall c :: c in t.cameras ==> t.cameras[c].roomId in t.rooms
  }

  /** The invariant the room operations keep. */
  predicate Consistent(t: Tables) {
    && UniqueNamesPerHeadquarter(t.rooms)
    && Headquarters.RoomsReferenceHeadquarters(t)
    && CamerasReferenceRooms(t)
  }

  function ViewOf(id: Id, r: Room): RoomView {
    Plain(id, r.name, r.active, r.headquarterId)
  }

  // ---------------------------------------------------------------------
  // create
  // ---------------------------------------------------------------------

  function CreateOutcome(t: Tables, input: RoomInput, id: Id): (o: Outcome<RoomView>)
    requires id !in t.rooms
    ensures o.response.IsError(NOT_FOUND) <==> !ActiveHeadquarter(t, input.headquarterId)
    ensures o.response.IsError(CONFLICT) <==>
      ActiveHeadquarter(t, input.headquarterId) && NameTakenIn(t.rooms, input.name, input.headquarterId, None)
    ensures o.response.Thrown? && o.response.code == o.response.body.status
    ensures o.response.body.ok ==>
      && o.response.body.status == CREATED
      && o.response.body.data == Some([Plain(id, input.name, input.active, input.headquarterId)])
      && o.tables == t.(rooms := t.rooms[id := Room(input.name, input.active, input.headquarterId)])
    ensures !o.response.body.ok ==> o.tables == t
  {
    if !ActiveHeadquarter(t, input.headquarterId) then
      Outcome(Fail(NOT_FOUND, Keyed(ErrorCreating, HEADQUARTER_MISSING)), t)
    else if NameTakenIn(t.rooms, input.name, input.headquarterId, None) then
      Outcome(Fail(CONFLICT, Keyed(ErrorCreating, DUPLICATE_NAME)), t)
    else
      var room := Room(input.name, input.active, input.headquarterId);
      Outcome(Success(CREATED, Some(Key(SuccessfullyCreated)), Some([ViewOf(id, room)]), None, HttpException),
              t.(rooms := t.rooms[id := room]))
  }

  /** Creation keeps names unique within each headquarter, every room
      attached to a headquarter, and every camera in a room. */
  lemma CreateKeepsConsistent(t: Tables, input: RoomInput, id: Id)
    requires id !in t.rooms && Consistent(t)
    ensures Consistent(CreateOutcome(t, input, id).tables)
  {
  }

  method Create(db: Database, input: RoomInput, id: Id) returns (r: Response<RoomView>)
    requires id !in db.rooms
    modifies db
    ensures Outcome(r, db.Snapshot()) == CreateOutcome(old(db.Snapshot()), input, id)
  {
    var headquarterActive := input.headquarterId in db.headquarters && db.headquarters[input.headquarterId].active;
    if !headquarterActive {
      return Fail(NOT_FOUND, Keyed(ErrorCreating, HEADQUARTER_MISSING));
    }
    var duplicate := exists k | k in db.rooms :: db.rooms[k].name == input.name && db.rooms[k].headquarterId == input.headquarterId;
    if duplicate {
      return Fail(CONFLICT, Keyed(ErrorCreating, DUPLICATE_NAME));
    }
    var room := Room(input.name, input.active, input.headquarterId);
    db.rooms := db.rooms[id := room];
    r := Success(CREATED, Some(Key(SuccessfullyCreated)), Some([ViewOf(id, room)]), None, HttpException);
  }

  // ---------------------------------------------------------------------
  // findAll
  // ---------------------------------------------------------------------

  function HeadquarterName(t: Tables, id: Id): Option<string> {
    if id in t.headquarters then Some(t.headquarters[id].name) else None
  }

  /** The rooms in `scan` whose name matches the search, in scan order, each
      with the name of its headquarter. */
  function Matching(t: Tables, scan: seq<Id>, search: string): (rows: seq<RoomView>)
    requires forall k :: k in scan ==> k in t.rooms
    ensures forall v :: v in rows ==>
      && v.Listed? && v.id in t.rooms
      && v == Listed(v.id, t.rooms[v.id].name, t.rooms[v.id].active, t.rooms[v.id].headquarterId,
                     HeadquarterName(t, t.rooms[v.id].headquarterId))
      && NameMatches(v.name, search)
    ensures forall k :: k in scan && NameMatches(t.rooms[k].name, search) ==>
      exists v :: v in rows && v.id == k
  {
    if scan == [] then []
    else
      var r := t.rooms[scan[0]];
      var own := if NameMatches(r.name, search)
        then [Listed(scan[0], r.name, r.active, r.headquarterId, HeadquarterName(t, r.headquarterId))]
        else [];
      var rest := Matching(t, scan[1..], search);
      assert forall v :: v in own ==> v.id == scan[0];
      own + rest
  }

  /** `v` is a listed room whose name matches `search`, shown with its
      headquarter's name. */
  predicate ListedRow(t: Tables, v: RoomView, search: string) {
    && v.Listed? && v.id in t.rooms && NameMatches(v.name, search)
    && v.headquarterName == HeadquarterName(t, t.rooms[v.id].headquarterId)
  }

  function ByName(v: RoomView): string {
    v.name
  }

  /** `findAll`: the matching rooms with their headquarter's name, ordered
      by name, one page of them; an empty page is a 404. */
  function FindAll(t: Tables, q: Query, scan: seq<Id>): (r: Response<RoomView>)
    requires ValidQuery(q) && ScanOf(scan, t.rooms)
    ensures r.IsError(NOT_FOUND) <==> q.page > TotalPages(|Matching(t, scan, q.search)|, q.pageSize)
    ensures r.Thrown? && r.code == r.body.status
    ensures !r.IsError(NOT_FOUND) ==>
      r.body.data.Some? && forall v :: v in r.body.data.value ==> v.id in t.rooms && NameMatches(v.name, q.search)
  {
    GuardedListing(Matching(t, scan, q.search), q, ByName)
  }

  /** The listing answers 404 exactly when the page lies past the last page
      of the matching rooms, so always when no room matches. */
  lemma FindAllNotFoundIff(t: Tables, q: Query, scan: seq<Id>)
    requires ValidQuery(q) && ScanOf(scan, t.rooms)
    ensures FindAll(t, q, scan).IsError(NOT_FOUND) <==>
      q.page > TotalPages(|Matching(t, scan, q.search)|, q.pageSize)
    ensures (forall k :: k in t.rooms ==> !NameMatches(t.rooms[k].name, q.search)) ==>
      FindAll(t, q, scan).IsError(NOT_FOUND)
  {
    var rows := Matching(t, scan, q.search);
    if rows != [] {
      assert rows[0] in rows;
    }
  }

  /** A successful listing is thrown with 200 and holds between one and
      `pageSize` matching rooms, ordered by name, each with its headquarter's
      name. */
  lemma FindAllPage(t: Tables, q: Query, scan: seq<Id>)
    requires ValidQuery(q) && ScanOf(scan, t.rooms)
    requires !FindAll(t, q, scan).IsError(NOT_FOUND)
    ensures var r := FindAll(t, q, scan);
      && r.Thrown? && r.code == OK && r.body.ok && r.body.data.Some? && r.body.meta.Some?
      && 0 < |r.body.data.value| <= q.pageSize
      && SortedBy(r.body.data.value, ByName, LexLess)
      && (forall v :: v in r.body.data.value ==> ListedRow(t, v, q.search))
  {
  }

  // ---------------------------------------------------------------------
  // update
  // ---------------------------------------------------------------------

  /** `update` checks the headquarter, then a name clash with another room,
      and only then whether the room exists. */
  function UpdateOutcome(t: Tables, id: Id, input: RoomInput): (o: Outcome<RoomView>)
    ensures !ActiveHeadquarter(t, input.headquarterId) ==>
      o.response.IsError(NOT_FOUND) && o.response.body.message == Keyed(ErrorCreating, HEADQUARTER_MISSING)
    ensures o.response.IsError(CONFLICT) <==>
      ActiveHeadquarter(t, input.headquarterId) && NameTakenIn(t.rooms, input.name, input.headquarterId, Some(id))
    ensures o.response.IsError(CONFLICT) ==> o.response.body.message == Keyed(ErrorCreating, DUPLICATE_NAME)
    ensures o.response.IsError(NOT_FOUND) <==>
      !ActiveHeadquarter(t, input.headquarterId)
      || (!NameTakenIn(t.rooms, input.name, input.headquarterId, Some(id)) && id !in t.rooms)
    ensures ActiveHeadquarter(t, input.headquarterId) && o.response.IsError(NOT_FOUND) ==>
      o.response.body.message == Keyed(ErrorUpdating, MISSING_ON_UPDATE)
    ensures o.response.Thrown? && o.response.code == o.response.body.status
    ensures o.response.body.ok <==>
      ActiveHeadquarter(t, input.headquarterId) && !NameTakenIn(t.rooms, input.name, input.headquarterId, Some(id))
      && id in t.rooms
    ensures o.response.body.ok ==>
      && o.response.body.status == OK
      && o.response.body.data == Some([Plain(id, input.name, input.active, input.headquarterId)])
      && o.tables == t.(rooms := t.rooms[id := Room(input.name, input.active, input.headquarterId)])
    ensures !o.response.body.ok ==> o.tables == t
  {
    if !ActiveHeadquarter(t, input.headquarterId) then
      Outcome(Fail(NOT_FOUND, Keyed(ErrorCreating, HEADQUARTER_MISSING)), t)
    else if NameTakenIn(t.rooms, input.name, input.headquarterId, Some(id)) then
      Outcome(Fail(CONFLICT, Keyed(ErrorCreating, DUPLICATE_NAME)), t)
    else if id !in t.rooms then
      Outcome(Fail(NOT_FOUND, Keyed(ErrorUpdating, MISSING_ON_UPDATE)), t)
    else
      var room := Room(input.name, input.active, input.headquarterId);
      Outcome(Success(OK, Some(Key(SuccessfullyUpdated)), Some([ViewOf(id, room)]), None, HttpException),
              t.(rooms := t.rooms[id := room]))
  }

  /** Updating keeps the invariant; saving a room under its own name and
      headquarter is never a conflict. */
  lemma UpdateKeepsConsistent(t: Tables, id: Id, input: RoomInput)
    requires Consistent(t)
    ensures Consistent(UpdateOutcome(t, id, input).tables)
    ensures (id in t.rooms && ActiveHeadquarter(t, input.headquarterId)
             && input.name == t.rooms[id].name && input.headquarterId == t.rooms[id].headquarterId) ==>
      UpdateOutcome(t, id, input).response.body.ok
  {
  }

  method Update(db: Database, id: Id, input: RoomInput) returns (r: Response<RoomView>)
    modifies db
    ensures Outcome(r, db.Snapshot()) == UpdateOutcome(old(db.Snapshot()), id, input)
  {
    var headquarterActive := input.headquarterId in db.headquarters && db.headquarters[input.headquarterId].active;
    if !headquarterActive {
      return Fail(NOT_FOUND, Keyed(ErrorCreating, HEADQUARTER_MISSING));
    }
    var duplicate := exists k | k in db.rooms :: k != id && db.rooms[k].name == input.name && db.rooms[k].headquarterId == input.headquarterId;
    if duplicate {
      assert NameTakenIn(db.rooms, input.name, input.headquarterId, Some(id));
      return Fail(CONFLICT, Keyed(ErrorCreating, DUPLICATE_NAME));
    }
    if id !in db.rooms {
      return Fail(NOT_FOUND, Keyed(ErrorUpdating, MISSING_ON_UPDATE));
    }
    var room := Room(input.name, input.active, input.headquarterId);
    db.rooms := db.rooms[id := room];
    r := Success(OK, Some(Key(SuccessfullyUpdated)), Some([ViewOf(id, room)]), None, HttpException);
  }

  // ---------------------------------------------------------------------
  // remove
  // ---------------------------------------------------------------------

  predicate HasCameras(t: Tables, id: Id) {
    exists c :: c in t.cameras && t.cameras[c].roomId == id
  }

  predicate HasCurrentService(t: Tables, id: Id) {
    exists s :: s in t.services && t.services[s].roomId == id && t.services[s].current
  }

  function RemoveOutcome(t: Tables, id: Id): (o: Outcome<RoomView>)
    ensures o.response.IsError(NOT_FOUND) <==> id !in t.rooms
    ensures o.response.Thrown? && o.response.code == o.response.body.status
    ensures o.response.IsError(CONFLICT) <==> id in t.rooms && (HasCameras(t, id) || HasCurrentService(t, id))
    ensures o.response.body.ok <==> id in t.rooms && !HasCameras(t, id) && !HasCurrentService(t, id)
    ensures o.response.body.ok ==>
      o.response.body.status == OK && o.tables == t.(rooms := t.rooms - {id})
    ensures !o.response.body.ok ==> o.tables == t
  {
    if id !in t.rooms then
      Outcome(Fail(NOT_FOUND, Key(NoDataFound)), t)
    else if HasCameras(t, id) then
      Outcome(Fail(CONFLICT, Keyed(ErrorCreating, CAMERAS_ATTACHED)), t)
    else if HasCurrentService(t, id) then
      Outcome(Fail(CONFLICT, Keyed(ErrorCreating, SERVICE_CURRENT)), t)
    else
      Outcome(Success(OK, Some(Key(SuccessfullyDeleted)), None, None, HttpException), t.(rooms := t.rooms - {id}))
  }

  /** Removal keeps the invariant, and afterwards no current service refers
      to a room that is gone. */
  lemma RemoveKeepsConsistent(t: Tables, id: Id)
    requires Consistent(t)
    requires forall s :: s in t.services && t.services[s].current ==> t.services[s].roomId in t.rooms
    ensures var t' := RemoveOutcome(t, id).tables;
      && Consistent(t')
      && (forall s :: s in t'.services && t'.services[s].current ==> t'.services[s].roomId in t'.rooms)
  {
    var o := RemoveOutcome(t, id);
    if o.response.body.ok {
      forall c | c in o.tables.cameras ensures o.tables.cameras[c].roomId in o.tables.rooms {
        assert t.cameras[c].roomId != id;
      }
      forall s | s in o.tables.services && o.tables.services[s].current
        ensures o.tables.services[s].roomId in o.tables.rooms
      {
        assert t.services[s].roomId != id;
      }
    }
  }

  method Remove(db: Database, id: Id) returns (r: Response<RoomView>)
    modifies db
    ensures Outcome(r, db.Snapshot()) == RemoveOutcome(old(db.Snapshot()), id)
  {
    if id !in db.rooms {
      return Fail(NOT_FOUND, Key(NoDataFound));
    }
    var cameras := exists c | c in db.cameras :: db.cameras[c].roomId == id;
    if cameras {
      return Fail(CONFLICT, Keyed(ErrorCreating, CAMERAS_ATTACHED));
    }
    var current := exists s | s in db.services :: db.services[s].roomId == id && db.services[s].current;
    if current {
      return Fail(CONFLICT, Keyed(ErrorCreating, SERVICE_CURRENT));
    }
    db.rooms := db.rooms - {id};
    r := Success(OK, Some(Key(SuccessfullyDeleted)), None, None, HttpException);
  }
}
