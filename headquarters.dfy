/** Headquarters (src/modules/headquarters/headquarters.service.ts): globally
    unique names, a paginated listing with an unguarded `skip`, the list of
    active headquarters, and deletion refused while rooms refer to one. */
module Headquarters {
  import opened Optional
  import opened Text
  import opened Envelope
  import opened Store
  import opened Sorting
  import opened Pagination

  datatype HeadquarterInput = HeadquarterInput(name: string, active: bool)

  /** A row of a response: `{id, name, active}`, or `{id, name}` from `findActive`. */
  datatype HeadquarterView = Full(id: Id, name: string, active: bool) | Brief(id: Id, name: string)

  const DUPLICATE_NAME: string := "\"Ya existe una sede con este nombre.\""
  const MISSING_ON_UPDATE: string := "\"Sede no encontrada.\""
  const ROOMS_ATTACHED: string := "\"Existen salas asociadas a esta sede, primero remueva las salas para continuar\"."

  predicate NameTaken(hqs: map<Id, Headquarter>, name: string) {
    exists h :: h in hqs && hqs[h].name == name
  }

  predicate NameTakenByOther(hqs: map<Id, Headquarter>, name: string, id: Id) {
    exists h :: h in hqs && h != id && hqs[h].name == name
  }

  /** No two headquarters share a name. */
  predicate UniqueNames(hqs: map<Id, Headquarter>) {
    forall a, b :: a in hqs && b in hqs && a != b ==> hqs[a].name != hqs[b].name
  }

  /** Every room belongs to an existing headquarter. */
  predicate RoomsReferenceHeadquarters(t: Tables) {
    forall r :: r in t.rooms ==> t.rooms[r].headquarterId in t.headquarters
  }

  predicate HasRooms(t: Tables, id: Id) {
    exists r :: r in t.rooms && t.rooms[r].headquarterId == id
  }

  // ---------------------------------------------------------------------
  // create
  // ---------------------------------------------------------------------

  function CreateOutcome(t: Tables, input: HeadquarterInput, id: Id): (o: Outcome<HeadquarterView>)
    requires id !in t.headquarters
    ensures o.response.IsError(CONFLICT) <==> NameTaken(t.headquarters, input.name)
    ensures o.response.IsError(CONFLICT) ==> o.tables == t
    ensures !o.response.IsError(CONFLICT) ==>
      && o.response.Returned? && o.response.body.status == CREATED
      && o.response.body.data == Some([Full(id, input.name, input.active)])
      && o.tables.headquarters.Keys == t.headquarters.Keys + {id}
      && o.tables == t.(headquarters := o.tables.headquarters)
  {
    if NameTaken(t.headquarters, input.name) then
      Outcome(Fail(CONFLICT, Keyed(ErrorCreating, DUPLICATE_NAME)), t)
    else
      Outcome(Success(CREATED, Some(Key(SuccessfullyCreated)), Some([Full(id, input.name, input.active)]), None, Objet),
              t.(headquarters := t.headquarters[id := Headquarter(input.name, input.active)]))
  }

  /** Creation keeps names unique. */
  lemma CreateKeepsNamesUnique(t: Tables, input: HeadquarterInput, id: Id)
    requires id !in t.headquarters && UniqueNames(t.headquarters)
    ensures UniqueNames(CreateOutcome(t, input, id).tables.headquarters)
  {
    var hqs := CreateOutcome(t, input, id).tables.headquarters;
    if !NameTaken(t.headquarters, input.name) {
      forall a, b | a in hqs && b in hqs && a != b ensures hqs[a].name != hqs[b].name {
        if a == id {
          assert !(b in t.headquarters && t.headquarters[b].name == input.name);
        } else if b == id {
          assert !(a in t.headquarters && t.headquarters[a].name == input.name);
        }
      }
    }
  }

  method Create(db: Database, input: HeadquarterInput, id: Id) returns (r: Response<HeadquarterView>)
    requires id !in db.headquarters
    modifies db
    ensures Outcome(r, db.Snapshot()) == CreateOutcome(old(db.Snapshot()), input, id)
  {
    var duplicate := exists h | h in db.headquarters :: db.headquarters[h].name == input.name;
    if duplicate {
      return Fail(CONFLICT, Keyed(ErrorCreating, DUPLICATE_NAME));
    }
    db.headquarters := db.headquarters[id := Headquarter(input.name, input.active)];
    r := Success(CREATED, Some(Key(SuccessfullyCreated)), Some([Full(id, input.name, input.active)]), None, Objet);
  }

  // ---------------------------------------------------------------------
  // findAll, findActive, findOne
  // ---------------------------------------------------------------------

  /** The headquarters in `scan` whose name matches the search, in scan order. */
  function Matching(hqs: map<Id, Headquarter>, scan: seq<Id>, search: string): (rows: seq<HeadquarterView>)
    requires forall k :: k in scan ==> k in hqs
    ensures forall v :: v in rows ==> v.Full? && v.id in hqs && v == Full(v.id, hqs[v.id].name, hqs[v.id].active)
                                      && NameMatches(v.name, search)
    ensures forall k :: k in scan && NameMatches(hqs[k].name, search) ==> Full(k, hqs[k].name, hqs[k].active) in rows
  {
    if scan == [] then []
    else
      var h := hqs[scan[0]];
      (if NameMatches(h.name, search) then [Full(scan[0], h.name, h.active)] else []) + Matching(hqs, scan[1..], search)
  }

  function ByName(v: HeadquarterView): string {
    v.name
  }

  /** The rows ordered by name, then `skip`/`take` of one page. */
  function NamePage(rows: seq<HeadquarterView>, q: Query): (page: seq<HeadquarterView>)
    requires ValidQuery(q)
    ensures |page| <= q.pageSize
    ensures forall v :: v in page ==> v in rows
  {
    SortByMembers(rows, ByName, LexLess);
    Slice(SortBy(rows, ByName, LexLess), PlainSkip(q.page, q.pageSize), q.pageSize)
  }

  /** `findAll`: filter, order by name, skip `(page - 1) * pageSize`, take
      `pageSize`; 404 only when nothing matches at all. */
  function FindAll(t: Tables, q: Query, scan: seq<Id>): (r: Response<HeadquarterView>)
    requires ValidQuery(q) && ScanOf(scan, t.headquarters)
    ensures r.IsError(NOT_FOUND) <==> Matching(t.headquarters, scan, q.search) == []
    ensures !r.IsError(NOT_FOUND) ==>
      && r.Returned? && r.body.ok && r.body.status == OK && r.body.data.Some?
      && |r.body.data.value| <= q.pageSize
      && forall v :: v in r.body.data.value ==> v.Full? && v.id in t.headquarters && NameMatches(v.name, q.search)
  {
    var rows := Matching(t.headquarters, scan, q.search);
    var total := |rows|;
    if total == 0 then Fail(NOT_FOUND, Key(NoDataFound))
    else
      var page := NamePage(rows, q);
      Success(OK, None, Some(page), Some(Meta(q.page, q.pageSize, TotalPages(total, q.pageSize), total, q.search)), Objet)
  }

  /** The listing answers 404 exactly when no headquarter matches the search. */
  lemma FindAllNotFoundIff(t: Tables, q: Query, scan: seq<Id>)
    requires ValidQuery(q) && ScanOf(scan, t.headquarters)
    ensures FindAll(t, q, scan).IsError(NOT_FOUND) <==>
            forall h :: h in t.headquarters ==> !NameMatches(t.headquarters[h].name, q.search)
  {
    var rows := Matching(t.headquarters, scan, q.search);
    if exists h :: h in t.headquarters && NameMatches(t.headquarters[h].name, q.search) {
      var h :| h in t.headquarters && NameMatches(t.headquarters[h].name, q.search);
      assert Full(h, t.headquarters[h].name, t.headquarters[h].active) in rows;
    }
  }

  /** A successful listing holds at most `pageSize` matching headquarters,
      ordered by name; a page past the last one is answered with 200 and no
      rows, where the rooms and cameras listings answer 404. */
  lemma FindAllPage(t: Tables, q: Query, scan: seq<Id>)
    requires ValidQuery(q) && ScanOf(scan, t.headquarters)
    requires !FindAll(t, q, scan).IsError(NOT_FOUND)
    ensures var r := FindAll(t, q, scan);
      && r.Returned? && r.body.status == OK && r.body.data.Some? && r.body.meta.Some?
      && |r.body.data.value| <= q.pageSize
      && SortedBy(r.body.data.value, ByName, LexLess)
      && (forall v :: v in r.body.data.value ==> v.id in t.headquarters && NameMatches(v.name, q.search))
      && r.body.meta.value.total > 0
      && (r.body.data.value == [] <==> q.page > r.body.meta.value.totalPages)
  {
    var rows := Matching(t.headquarters, scan, q.search);
    FindAllListing(t, q, scan);
    OrderedPage(rows, q, t.headquarters);
  }

  /** A listing that is not 404 carries the requested page of the ordered
      matching rows and their count. */
  lemma FindAllListing(t: Tables, q: Query, scan: seq<Id>)
    requires ValidQuery(q) && ScanOf(scan, t.headquarters)
    requires Matching(t.headquarters, scan, q.search) != []
    ensures var rows := Matching(t.headquarters, scan, q.search);
      var page := Slice(SortBy(rows, ByName, LexLess), PlainSkip(q.page, q.pageSize), q.pageSize);
      FindAll(t, q, scan) == Success(OK, None, Some(page), Some(Meta(q.page, q.pageSize, TotalPages(|rows|, q.pageSize), |rows|, q.search)), Objet)
  {
  }

  /** The page cut from the ordered rows is ordered, holds only rows, and is
      empty exactly past the last page. */
  lemma OrderedPage(rows: seq<HeadquarterView>, q: Query, hqs: map<Id, Headquarter>)
    requires ValidQuery(q)
    requires forall v :: v in rows ==> v.id in hqs && NameMatches(v.name, q.search)
    ensures var lt := LexLess;
      var page := Slice(SortBy(rows, ByName, lt), PlainSkip(q.page, q.pageSize), q.pageSize);
      && |page| <= q.pageSize
      && SortedBy(page, ByName, lt)
      && (forall v :: v in page ==> v.id in hqs && NameMatches(v.name, q.search))
      && (page == [] <==> q.page > TotalPages(|rows|, q.pageSize))
  {
    var lt := LexLess;
    LexLessStrictTotal();
    SortByCorrect(rows, ByName, lt);
    var ordered := SortBy(rows, ByName, lt);
    SliceKeepsOrder(ordered, PlainSkip(q.page, q.pageSize), q.pageSize, ByName, lt);
    forall v | v in ordered ensures v in rows {
      assert v in multiset(ordered);
    }
    SkipFormsAgree(q);
    PageEmptyIffPastEnd(ordered, q.page, q.pageSize);
  }

  /** The active headquarters in scan order, as `{id, name}`. */
  function Active(hqs: map<Id, Headquarter>, scan: seq<Id>): (rows: seq<HeadquarterView>)
    requires forall k :: k in scan ==> k in hqs
    ensures forall v :: v in rows ==> v.Brief? && v.id in hqs && hqs[v.id].active && v.name == hqs[v.id].name
    ensures forall k :: k in scan && hqs[k].active ==> Brief(k, hqs[k].name) in rows
  {
    if scan == [] then []
    else
      var h := hqs[scan[0]];
      (if h.active then [Brief(scan[0], h.name)] else []) + Active(hqs, scan[1..])
  }

  function FindActive(t: Tables, scan: seq<Id>): (r: Response<HeadquarterView>)
    requires ScanOf(scan, t.headquarters)
    ensures r.Returned? && r.body.ok && r.body.status == OK && r.body.data.Some?
    ensures multiset(r.body.data.value) == multiset(Active(t.headquarters, scan))
  {
    var rows := SortBy(Active(t.headquarters, scan), ByName, LexLess);
    Success(OK, None, Some(rows), None, Objet)
  }

  /** `findActive` returns every active headquarter once, as `{id, name}`,
      and nothing else, ordered by name. */
  lemma FindActiveExact(t: Tables, scan: seq<Id>)
    requires ScanOf(scan, t.headquarters)
    ensures var r := FindActive(t, scan);
      && r.Returned? && r.body.data.Some?
      && (forall h :: h in t.headquarters ==> (Brief(h, t.headquarters[h].name) in r.body.data.value <==> t.headquarters[h].active))
      && (forall v :: v in r.body.data.value ==> v.Brief? && v.id in t.headquarters)
      && SortedBy(r.body.data.value, ByName, LexLess)
  {
    var lt := LexLess;
    var rows := Active(t.headquarters, scan);
    LexLessStrictTotal();
    SortByCorrect(rows, ByName, lt);
    var sorted := SortBy(rows, ByName, lt);
    forall h | h in t.headquarters ensures Brief(h, t.headquarters[h].name) in sorted <==> t.headquarters[h].active {
      if Brief(h, t.headquarters[h].name) in sorted {
        assert Brief(h, t.headquarters[h].name) in multiset(rows);
      }
      if t.headquarters[h].active {
        assert Brief(h, t.headquarters[h].name) in multiset(sorted);
      }
    }
    forall v | v in sorted ensures v.Brief? && v.id in t.headquarters {
      assert v in multiset(rows);
    }
  }

  function FindOne(t: Tables, id: Id): (r: Response<HeadquarterView>)
    ensures r.IsError(NOT_FOUND) <==> id !in t.headquarters
    ensures id in t.headquarters ==>
      r.Returned? && r.body.data == Some([Full(id, t.headquarters[id].name, t.headquarters[id].active)])
  {
    if id !in t.headquarters then Fail(NOT_FOUND, Key(NoDataFound))
    else
      var h := t.headquarters[id];
      Success(OK, None, Some([Full(id, h.name, h.active)]), None, Objet)
  }

  // ---------------------------------------------------------------------
  // update
  // ---------------------------------------------------------------------

  /** The duplicate-name check runs before the existence check. */
  function UpdateOutcome(t: Tables, id: Id, input: HeadquarterInput): (o: Outcome<HeadquarterView>)
    ensures o.response.IsError(CONFLICT) <==> NameTakenByOther(t.headquarters, input.name, id)
    ensures o.response.IsError(NOT_FOUND) <==> !NameTakenByOther(t.headquarters, input.name, id) && id !in t.headquarters
    ensures o.response.IsError(CONFLICT) || o.response.IsError(NOT_FOUND) ==> o.tables == t
    ensures o.response.Returned? ==>
      && o.tables == t.(headquarters := t.headquarters[id := Headquarter(input.name, input.active)])
      && id in t.headquarters
  {
    if NameTakenByOther(t.headquarters, input.name, id) then
      Outcome(Fail(CONFLICT, Keyed(ErrorCreating, DUPLICATE_NAME)), t)
    else if id !in t.headquarters then
      Outcome(Fail(NOT_FOUND, Keyed(ErrorUpdating, MISSING_ON_UPDATE)), t)
    else
      Outcome(Success(OK, Some(Key(SuccessfullyUpdated)), Some([Full(id, input.name, input.active)]), None, Objet),
              t.(headquarters := t.headquarters[id := Headquarter(input.name, input.active)]))
  }

  /** Renaming keeps names unique, and saving a headquarter under its own
      name is not a conflict. */
  lemma UpdateKeepsNamesUnique(t: Tables, id: Id, input: HeadquarterInput)
    requires UniqueNames(t.headquarters)
    ensures UniqueNames(UpdateOutcome(t, id, input).tables.headquarters)
    ensures id in t.headquarters && input.name == t.headquarters[id].name ==>
            UpdateOutcome(t, id, input).response.Returned?
  {
    var hqs := UpdateOutcome(t, id, input).tables.headquarters;
    if UpdateOutcome(t, id, input).response.Returned? {
      forall a, b | a in hqs && b in hqs && a != b ensures hqs[a].name != hqs[b].name {
        if a == id {
          assert !(b in t.headquarters && b != id && t.headquarters[b].name == input.name);
        } else if b == id {
          assert !(a in t.headquarters && a != id && t.headquarters[a].name == input.name);
        }
      }
    }
  }

  method Update(db: Database, id: Id, input: HeadquarterInput) returns (r: Response<HeadquarterView>)
    modifies db
    ensures Outcome(r, db.Snapshot()) == UpdateOutcome(old(db.Snapshot()), id, input)
  {
    var duplicate := exists h | h in db.headquarters :: h != id && db.headquarters[h].name == input.name;
    var found := id in db.headquarters;
    if duplicate {
      return Fail(CONFLICT, Keyed(ErrorCreating, DUPLICATE_NAME));
    }
    if !found {
      return Fail(NOT_FOUND, Keyed(ErrorUpdating, MISSING_ON_UPDATE));
    }
    db.headquarters := db.headquarters[id := Headquarter(input.name, input.active)];
    r := Success(OK, Some(Key(SuccessfullyUpdated)), Some([Full(id, input.name, input.active)]), None, Objet);
  }

  // ---------------------------------------------------------------------
  // remove
  // ---------------------------------------------------------------------

  function RemoveOutcome(t: Tables, id: Id): (o: Outcome<HeadquarterView>)
    ensures o.response.IsError(NOT_FOUND) <==> id !in t.headquarters
    ensures o.response.IsError(CONFLICT) <==> id in t.headquarters && HasRooms(t, id)
    ensures !o.response.Returned? ==> o.tables == t
    ensures o.response.Returned? ==> o.tables == t.(headquarters := t.headquarters - {id}) && id in t.headquarters
  {
    if id !in t.headquarters then Outcome(Fail(NOT_FOUND, Key(NoDataFound)), t)
    else if HasRooms(t, id) then Outcome(Fail(CONFLICT, Keyed(ErrorCreating, ROOMS_ATTACHED)), t)
    else Outcome(Success(OK, Some(Key(SuccessfullyDeleted)), None, None, Objet), t.(headquarters := t.headquarters - {id}))
  }

  /** Deletion never leaves a room pointing at a missing headquarter. */
  lemma RemoveKeepsRoomsAttached(t: Tables, id: Id)
    requires RoomsReferenceHeadquarters(t)
    ensures RoomsReferenceHeadquarters(RemoveOutcome(t, id).tables)
  {
    var o := RemoveOutcome(t, id);
    if o.response.Returned? {
      forall r | r in o.tables.rooms ensures o.tables.rooms[r].headquarterId in o.tables.headquarters {
        assert !(r in t.rooms && t.rooms[r].headquarterId == id);
      }
    }
  }

  method Remove(db: Database, id: Id) returns (r: Response<HeadquarterView>)
    modifies db
    ensures Outcome(r, db.Snapshot()) == RemoveOutcome(old(db.Snapshot()), id)
  {
    if id !in db.headquarters {
      return Fail(NOT_FOUND, Key(NoDataFound));
    }
    var attached := exists room | room in db.rooms :: db.rooms[room].headquarterId == id;
    if attached {
      return Fail(CONFLICT, Keyed(ErrorCreating, ROOMS_ATTACHED));
    }
    db.headquarters := db.headquarters - {id};
    r := Success(OK, Some(Key(SuccessfullyDeleted)), None, None, Objet);
  }
}
