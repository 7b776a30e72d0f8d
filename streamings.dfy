/** Streaming controls (src/modules/Streamings/streamings.service.ts): the
    PTZ movements a booked room offers, ordered for display, and the
    execution of one movement by an HTTP PUT to the camera. */
module Streamings {
  import opened Optional
  import opened Text
  import opened Envelope
  import opened Store
  import opened Sorting
  import opened Duplicates

  /** A movement as collected: `{id, name, order}`. */
  datatype Ranked = Ranked(id: Id, name: string, order: int)

  /** A movement as answered: `{id, name}`. */
  datatype PtzEntry = PtzEntry(id: Id, name: string)

  const SERVICE_MISSING: string := "\"Servicio no encontrado.\""
  const PTZ_TIMEOUT: string := "Se agotó el tiempo de espera de la solicitud al ejecutar el movimiento PTZ."
  const PTZ_ERROR: string := "Se produjo un error al ejecutar el movimiento PTZ."

  // ---------------------------------------------------------------------
  // getPTZs
  // ---------------------------------------------------------------------

  function RankedOf(t: Tables, m: Id): Ranked
    requires m in t.movements
  {
    Ranked(m, t.movements[m].name, t.movements[m].order)
  }

  function OrderOf(r: Ranked): int {
    r.order
  }

  function Ids(rs: seq<Ranked>): (r: seq<Id>)
    ensures |r| == |rs| && forall i :: 0 <= i < |rs| ==> r[i] == rs[i].id
  {
    seq(|rs|, i requires 0 <= i < |rs| => rs[i].id)
  }

  /** `camera.movementsPTZ`: the movements of camera `c`, in scan order. */
  function MovementIdsOf(t: Tables, movementScan: seq<Id>, c: Id): (ids: seq<Id>)
    requires forall m :: m in movementScan ==> m in t.movements
    ensures forall m :: m in ids <==> m in movementScan && t.movements[m].cameraId == c
  {
    if movementScan == [] then []
    else
      var m := movementScan[0];
      (if t.movements[m].cameraId == c then [m] else []) + MovementIdsOf(t, movementScan[1..], c)
  }

  /** Whether movement `m` belongs to a camera of the scan placed in `roomId`. */
  predicate InRoom(t: Tables, cameraScan: seq<Id>, m: Id, roomId: Id)
    requires m in t.movements && forall c :: c in cameraScan ==> c in t.cameras
  {
    t.movements[m].cameraId in cameraScan && t.cameras[t.movements[m].cameraId].roomId == roomId
  }

  /** The `flatMap` over the cameras of room `roomId`, in scan order. */
  function RoomMovementIds(t: Tables, cameraScan: seq<Id>, movementScan: seq<Id>, roomId: Id): (ids: seq<Id>)
    requires forall c :: c in cameraScan ==> c in t.cameras
    requires forall m :: m in movementScan ==> m in t.movements
    ensures forall m :: m in ids <==> m in movementScan && InRoom(t, cameraScan, m, roomId)
  {
    if cameraScan == [] then []
    else
      var c := cameraScan[0];
      (if t.cameras[c].roomId == roomId then MovementIdsOf(t, movementScan, c) else [])
        + RoomMovementIds(t, cameraScan[1..], movementScan, roomId)
  }

  /** `{id, name, order}` of each collected movement. */
  function Rank(t: Tables, ids: seq<Id>): (rs: seq<Ranked>)
    requires forall m :: m in ids ==> m in t.movements
    ensures |rs| == |ids| && forall i :: 0 <= i < |ids| ==> rs[i] == RankedOf(t, ids[i])
  {
    seq(|ids|, i requires 0 <= i < |ids| => RankedOf(t, ids[i]))
  }

  lemma DistinctConcat(a: seq<Id>, b: seq<Id>)
    requires Distinct(a) && Distinct(b) && forall x :: x in a ==> x !in b
    ensures Distinct(a + b)
  {
    var s := a + b;
    forall i, j | 0 <= i < j < |s| ensures s[i] != s[j] {
      if j < |a| {
        assert s[i] == a[i] && s[j] == a[j];
      } else if i >= |a| {
        assert s[i] == b[i - |a|] && s[j] == b[j - |a|];
      } else {
        assert s[i] == a[i] && a[i] in a;
        assert s[j] == b[j - |a|] && b[j - |a|] in b;
      }
    }
  }

  lemma DistinctTail(xs: seq<Id>)
    requires xs != [] && Distinct(xs)
    ensures Distinct(xs[1..]) && xs[0] !in xs[1..]
  {
    var tail := xs[1..];
    forall i, j | 0 <= i < j < |tail| ensures tail[i] != tail[j] {
      assert tail[i] == xs[i + 1] && tail[j] == xs[j + 1];
    }
    forall i | 0 <= i < |tail| ensures tail[i] != xs[0] {
      assert tail[i] == xs[i + 1];
    }
  }

  /** A movement is collected at most once for its camera. */
  lemma {:induction false} MovementIdsOfDistinct(t: Tables, movementScan: seq<Id>, c: Id)
    requires forall m :: m in movementScan ==> m in t.movements
    requires Distinct(movementScan)
    ensures Distinct(MovementIdsOf(t, movementScan, c))
  {
    if movementScan != [] {
      var m := movementScan[0];
      DistinctTail(movementScan);
      MovementIdsOfDistinct(t, movementScan[1..], c);
      DistinctConcat(if t.movements[m].cameraId == c then [m] else [], MovementIdsOf(t, movementScan[1..], c));
    }
  }

  /** A movement is collected at most once for the whole room. */
  lemma {:induction false} RoomMovementIdsDistinct(t: Tables, cameraScan: seq<Id>, movementScan: seq<Id>, roomId: Id)
    requires forall c :: c in cameraScan ==> c in t.cameras
    requires forall m :: m in movementScan ==> m in t.movements
    requires Distinct(cameraScan) && Distinct(movementScan)
    ensures Distinct(RoomMovementIds(t, cameraScan, movementScan, roomId))
  {
    if cameraScan != [] {
      var c := cameraScan[0];
      DistinctTail(cameraScan);
      RoomMovementIdsDistinct(t, cameraScan[1..], movementScan, roomId);
      var head := if t.cameras[c].roomId == roomId then MovementIdsOf(t, movementScan, c) else [];
      if t.cameras[c].roomId == roomId {
        MovementIdsOfDistinct(t, movementScan, c);
      }
      DistinctConcat(head, RoomMovementIds(t, cameraScan[1..], movementScan, roomId));
    }
  }

  function Project(rs: seq<Ranked>): (r: seq<PtzEntry>)
    ensures |r| == |rs| && forall i :: 0 <= i < |rs| ==> r[i] == PtzEntry(rs[i].id, rs[i].name)
  {
    seq(|rs|, i requires 0 <= i < |rs| => PtzEntry(rs[i].id, rs[i].name))
  }

  /** The collected movements of room `roomId`. */
  function Collected(t: Tables, cameraScan: seq<Id>, movementScan: seq<Id>, roomId: Id): seq<Ranked>
    requires forall c :: c in cameraScan ==> c in t.cameras
    requires forall m :: m in movementScan ==> m in t.movements
  {
    Rank(t, RoomMovementIds(t, cameraScan, movementScan, roomId))
  }

  /** The collected movements sorted by `order`, stably. */
  function Ordered(t: Tables, cameraScan: seq<Id>, movementScan: seq<Id>, roomId: Id): seq<Ranked>
    requires forall c :: c in cameraScan ==> c in t.cameras
    requires forall m :: m in movementScan ==> m in t.movements
  {
    SortBy(Collected(t, cameraScan, movementScan, roomId), OrderOf, IntLess)
  }

  /** `getPTZs`: a 404 for an unknown service; the room a service points at
      is read without a check, so a missing room is a 500. The single datum
      is the whole list. */
  function GetPTZs(t: Tables, id: Id, cameraScan: seq<Id>, movementScan: seq<Id>): (r: Response<seq<PtzEntry>>)
    requires ScanOf(cameraScan, t.cameras) && ScanOf(movementScan, t.movements)
    ensures r.Thrown? && r.code == r.body.status
    ensures r.IsError(NOT_FOUND) <==> id !in t.services
    ensures r.IsError(INTERNAL_SERVER_ERROR) <==> id in t.services && t.services[id].roomId !in t.rooms
    ensures r.body.ok ==>
      && r.code == OK && id in t.services
      && r.body.data == Some([Project(Ordered(t, cameraScan, movementScan, t.services[id].roomId))])
  {
    if id !in t.services then Fail(NOT_FOUND, Keyed(ErrorFetching, SERVICE_MISSING))
    else if t.services[id].roomId !in t.rooms then Unexpected()
    else Success(OK, None, Some([Project(Ordered(t, cameraScan, movementScan, t.services[id].roomId))]), None, HttpException)
  }

  /** The movements of a room in display order: ascending `order`, ties in
      the order collected, each movement of each camera of the room exactly
      once, and nothing else. */
  lemma GetPTZsOrdered(t: Tables, cameraScan: seq<Id>, movementScan: seq<Id>, roomId: Id)
    requires ScanOf(cameraScan, t.cameras) && ScanOf(movementScan, t.movements)
    ensures var collected := Collected(t, cameraScan, movementScan, roomId);
      var sorted := Ordered(t, cameraScan, movementScan, roomId);
      && SortedBy(sorted, OrderOf, IntLess)
      && multiset(sorted) == multiset(collected)
      && (forall k :: WithKey(sorted, OrderOf, k) == WithKey(collected, OrderOf, k))
      && Distinct(Ids(sorted))
      && (forall m :: m in t.movements ==>
            (RankedOf(t, m) in sorted <==> InRoom(t, cameraScan, m, roomId)))
      && (forall r :: r in sorted ==> r.id in t.movements && r == RankedOf(t, r.id))
  {
    var collected := Collected(t, cameraScan, movementScan, roomId);
    var sorted := Ordered(t, cameraScan, movementScan, roomId);
    IntLessStrictTotal();
    SortByCorrect(collected, OrderOf, IntLess);
    CollectedFacts(t, cameraScan, movementScan, roomId);
    forall r | r in sorted ensures r in collected {
      assert r in multiset(sorted);
    }
    forall r | r in collected ensures r in sorted {
      assert r in multiset(collected);
    }
    PermutationKeepsDistinct(collected, sorted);
  }

  /** The collected movements before sorting: exactly those of the room's
      cameras, each once. */
  lemma CollectedFacts(t: Tables, cameraScan: seq<Id>, movementScan: seq<Id>, roomId: Id)
    requires ScanOf(cameraScan, t.cameras) && ScanOf(movementScan, t.movements)
    ensures var collected := Collected(t, cameraScan, movementScan, roomId);
      && Distinct(Ids(collected))
      && (forall m :: m in t.movements ==>
            (RankedOf(t, m) in collected <==> InRoom(t, cameraScan, m, roomId)))
      && (forall r :: r in collected ==> r.id in t.movements && r == RankedOf(t, r.id))
  {
    var ids := RoomMovementIds(t, cameraScan, movementScan, roomId);
    var collected := Collected(t, cameraScan, movementScan, roomId);
    RoomMovementIdsDistinct(t, cameraScan, movementScan, roomId);
    assert Ids(collected) == ids;
    forall m | m in t.movements && InRoom(t, cameraScan, m, roomId) ensures RankedOf(t, m) in collected {
      var i :| 0 <= i < |ids| && ids[i] == m;
      assert collected[i] == RankedOf(t, m);
    }
    forall m | m in t.movements && RankedOf(t, m) in collected ensures InRoom(t, cameraScan, m, roomId) {
      var i :| 0 <= i < |collected| && collected[i] == RankedOf(t, m);
      assert ids[i] == m;
    }
  }

  lemma PermutationKeepsDistinct(a: seq<Ranked>, b: seq<Ranked>)
    requires multiset(a) == multiset(b) && Distinct(Ids(a))
    ensures Distinct(Ids(b))
  {
    forall i, j | 0 <= i < j < |b| ensures b[i].id != b[j].id {
      assert b[i] in multiset(a) && b[j] in multiset(a);
      var x :| 0 <= x < |a| && a[x] == b[i];
      var y :| 0 <= y < |a| && a[y] == b[j];
      if b[i] == b[j] {
        TwiceCounted(b, i, j);
        DistinctCount(a, x);
      } else {
        IdsApart(a, x, y);
      }
    }
  }

  lemma IdsApart(a: seq<Ranked>, x: nat, y: nat)
    requires x < |a| && y < |a| && x != y && Distinct(Ids(a))
    ensures a[x].id != a[y].id
  {
    if x < y { assert Ids(a)[x] != Ids(a)[y]; } else { assert Ids(a)[y] != Ids(a)[x]; }
  }

  lemma TwiceCounted(b: seq<Ranked>, i: nat, j: nat)
    requires i < j < |b| && b[i] == b[j]
    ensures multiset(b)[b[i]] >= 2
  {
    assert b == b[..i] + [b[i]] + b[i + 1..j] + [b[j]] + b[j + 1..];
  }

  /** With distinct ids, each element occurs once. */
  lemma DistinctCount(a: seq<Ranked>, x: nat)
    requires x < |a| && Distinct(Ids(a))
    ensures multiset(a)[a[x]] <= 1
  {
    assert a == a[..x] + [a[x]] + a[x + 1..];
    assert a[x] !in a[..x] by {
      forall k | 0 <= k < x ensures a[..x][k] != a[x] {
        IdsApart(a, k, x);
      }
    }
    assert a[x] !in a[x + 1..] by {
      forall k | x + 1 <= k < |a| ensures a[k] != a[x] {
        IdsApart(a, k, x);
      }
    }
  }

  // ---------------------------------------------------------------------
  // execPTZ
  // ---------------------------------------------------------------------

  /** The parts of the PTZ target. */
  datatype Target = Target(userName: string, password: string, ipAddress: string, httpPort: string, endPoint: string)

  /** `http://${userName}:${password}@${ipAddress}:${httpPort}${endPoint}`:
      no part is percent-encoded. */
  function PtzUrl(g: Target): (url: string)
    ensures StartsWith(url, "http://")
  {
    "http://" + (g.userName + (":" + (g.password + ("@" + (g.ipAddress + (":" + (g.httpPort + g.endPoint)))))))
  }

  /** The target of movement `id`: its camera's credentials and its endpoint;
      none when the camera or its credentials are missing. */
  function TargetOf(t: Tables, id: Id): (r: Option<Target>)
    requires id in t.movements
    ensures r.Some? <==>
      var c := t.movements[id].cameraId;
      c in t.cameras && t.cameras[c].authCameraId.Some? && t.cameras[c].authCameraId.value in t.auths
  {
    var c := t.movements[id].cameraId;
    if c in t.cameras && t.cameras[c].authCameraId.Some? && t.cameras[c].authCameraId.value in t.auths then
      var a := t.auths[t.cameras[c].authCameraId.value];
      Some(Target(a.userName, a.password, a.ipAddress, a.httpPort, t.movements[id].endPoint))
    else None
  }

  /** How the PUT ended; the request itself is outside the model. `Etimedout`
      is a failure whose error code is `ETIMEDOUT` (the socket's own connect
      time-out); the 3000 ms `timeout` option of the request ends it with
      `ECONNABORTED`, which is an `OtherFailure` like every other error. */
  datatype PutResult = Done | Etimedout | OtherFailure

  /** The inner `catch`: an `ETIMEDOUT` error is a 408, anything else a 500. */
  function PutFailure(e: PutResult): Response<()>
  {
    if e == Etimedout then Fail(REQUEST_TIMEOUT, Text(PTZ_TIMEOUT)) else Fail(INTERNAL_SERVER_ERROR, Text(PTZ_ERROR))
  }

  /** `execPTZ` as written. The success envelope is thrown inside the inner
      `try`, so its own `catch` receives it; an HTTP exception carries no
      `ETIMEDOUT` code, so a movement that ran is reported as a 500. A
      missing camera or credentials row fails inside the inner `try` too. */
  function ExecPTZAsWritten(t: Tables, id: Id, put: PutResult): (r: Response<()>)
    ensures r.Thrown? && r.code == r.body.status
    ensures !r.body.ok
  {
    if id !in t.movements then Fail(NOT_FOUND, Key(NoDataFound))
    else if TargetOf(t, id).None? then PutFailure(OtherFailure)
    else if put == Done then PutFailure(OtherFailure)
    else PutFailure(put)
  }

  /** `execPTZ` as intended: the movement that ran is a 200. */
  function ExecPTZ(t: Tables, id: Id, put: PutResult): (r: Response<()>)
    ensures r.Thrown? && r.code == r.body.status
    ensures r.IsError(NOT_FOUND) <==> id !in t.movements
    ensures r.IsError(REQUEST_TIMEOUT) <==> id in t.movements && TargetOf(t, id).Some? && put == Etimedout
    ensures r.body.ok <==> id in t.movements && TargetOf(t, id).Some? && put == Done
    ensures r.body.ok ==> r.code == OK
    ensures !r.body.ok && !r.IsError(NOT_FOUND) && !r.IsError(REQUEST_TIMEOUT) ==> r.IsError(INTERNAL_SERVER_ERROR)
  {
    if id !in t.movements then Fail(NOT_FOUND, Key(NoDataFound))
    else if TargetOf(t, id).None? then PutFailure(OtherFailure)
    else if put == Done then Success(OK, Some(Key(Successful)), None, None, HttpException)
    else PutFailure(put)
  }

  /** The discrepancy: a movement whose PUT succeeded is a 500 as written,
      a 200 as intended; the two agree whenever the PUT did not succeed. */
  lemma ExecPTZSuccessLost(t: Tables, id: Id, put: PutResult)
    requires id in t.movements && TargetOf(t, id).Some?
    ensures put == Done ==> ExecPTZAsWritten(t, id, put).IsError(INTERNAL_SERVER_ERROR) && ExecPTZ(t, id, put).body.ok
    ensures put != Done ==> ExecPTZAsWritten(t, id, put) == ExecPTZ(t, id, put)
  {
  }

  // ---------------------------------------------------------------------
  // The target URL, read back
  // ---------------------------------------------------------------------

  /** Split at the first `c`: what precedes it and what follows it. */
  function SplitAt(s: string, c: char): (r: (string, string))
    ensures c !in s ==> r == (s, "")
    ensures c in s ==> s == r.0 + [c] + r.1 && c !in r.0
  {
    if s == [] then ("", "")
    else if s[0] == c then ("", s[1..])
    else
      var rest := SplitAt(s[1..], c);
      assert s == [s[0]] + s[1..];
      ([s[0]] + rest.0, rest.1)
  }

  /** Split before the first `c`: what precedes it, and the rest from `c` on. */
  function SplitBefore(s: string, c: char): (r: (string, string))
    ensures c !in s ==> r == (s, "")
    ensures c in s ==> s == r.0 + r.1 && c !in r.0 && r.1 != [] && r.1[0] == c
  {
    if c !in s then (s, "")
    else
      var p := SplitAt(s, c);
      (p.0, [c] + p.1)
  }

  lemma {:induction false} SplitAtJoin(a: string, c: char, b: string)
    requires c !in a
    ensures SplitAt(a + ([c] + b), c) == (a, b)
  {
    var s := a + ([c] + b);
    if a == [] {
      assert s == [c] + b;
    } else {
      assert s[0] == a[0] && s[1..] == a[1..] + ([c] + b);
      SplitAtJoin(a[1..], c, b);
      assert [a[0]] + a[1..] == a;
    }
  }

  lemma SplitBeforeJoin(a: string, c: char, b: string)
    requires c !in a && (b == [] || b[0] == c)
    ensures SplitBefore(a + b, c) == (a, b)
  {
    if b == [] {
      assert a + b == a;
    } else {
      assert b == [c] + b[1..];
      assert (a + b)[|a|] == c;
      SplitAtJoin(a, c, b[1..]);
    }
  }

  /** Reading the parts back from a target URL. */
  function ParseUrl(url: string): Option<Target> {
    if !StartsWith(url, "http://") then None
    else
      var user := SplitAt(url[|"http://"|..], ':');
      var pass := SplitAt(user.1, '@');
      var host := SplitAt(pass.1, ':');
      var port := SplitBefore(host.1, '/');
      Some(Target(user.0, pass.0, host.0, port.0, port.1))
  }

  /** The URL determines its parts, as long as the user name holds no `:`,
      the password no `@`, the address no `:`, the port no `/`, and the
      endpoint is a path. */
  lemma ParsePtzUrl(g: Target)
    requires ':' !in g.userName && '@' !in g.password && ':' !in g.ipAddress && '/' !in g.httpPort
    requires g.endPoint == [] || g.endPoint[0] == '/'
    ensures ParseUrl(PtzUrl(g)) == Some(g)
  {
    var tail3 := g.httpPort + g.endPoint;
    var tail2 := g.ipAddress + (":" + tail3);
    var tail := g.password + ("@" + tail2);
    var url := PtzUrl(g);
    assert url[7..] == g.userName + (":" + tail);
    SplitAtJoin(g.userName, ':', tail);
    SplitAtJoin(g.password, '@', tail2);
    SplitAtJoin(g.ipAddress, ':', tail3);
    SplitBeforeJoin(g.httpPort, '/', g.endPoint);
  }

  /** Without percent-encoding, an `@` in the password makes two targets
      share one URL: the credentials cannot be told from the host. */
  lemma PtzUrlAmbiguous()
    ensures PtzUrl(Target("admin", "p@ss", "cam", "80", "/ptz"))
         == PtzUrl(Target("admin", "p", "ss@cam", "80", "/ptz"))
  {
  }
}
