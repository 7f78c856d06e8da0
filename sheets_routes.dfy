/** The sheet routes: `GET /sheets`, `POST /sheets` and `PUT /sheets/:id`,
    over the `sheets` collection. Each walks the same authorization ladder
    before it looks at the store; the caller's verified `userId` is the only
    owner any of them reads or writes. */
module SheetsRoutes {
  import opened Json
  import opened Tokens
  import opened ObjectIds

  /** A document of the `sheets` collection. The six client fields are kept
      as the request body supplied them; the two dates are clock readings. */
  datatype Sheet = Sheet(
    userId: string,
    sheetName: Json,
    description: Json,
    rate: Json,
    minutesEntries: Json,
    totalMinutes: Json,
    totalCost: Json,
    createdAt: nat,
    updatedAt: nat)

  /** The fields a create or update takes from the request body. */
  datatype SheetBody = SheetBody(
    sheetName: Json,
    description: Json,
    rate: Json,
    minutesEntries: Json,
    totalMinutes: Json,
    totalCost: Json)

  datatype Body =
    | Message(text: string)
    | Created(text: string, sheetId: ObjectId)
    | Sheets(list: seq<(ObjectId, Sheet)>)

  datatype Response = Response(status: nat, body: Body)

  const AuthenticationRequired := "Authentication required."
  const InvalidToken := "Invalid token."
  const InvalidUserToken := "Invalid user token."
  const SheetNameRequired := "Sheet name is required."
  const SheetCreated := "Sheet created successfully."
  const SheetNotFound := "Sheet not found or no changes made."
  const SheetUpdated := "Sheet updated successfully."
  const InternalError := "Internal server error."

  /** The outcome of the authorization ladder every sheet route starts with. */
  datatype Gate = Denied(message: string) | Allowed(userId: string)

  /** Missing cookie, then a token the library refuses, then a token without
      a (truthy) `userId` claim: each is a 401; otherwise the claim is the
      caller's identity for the rest of the request. */
  function Authenticate(token: Option<string>, jwt: Jwt, secret: string, nowMs: nat): (g: Gate)
    ensures !Present(token) ==> g == Denied(AuthenticationRequired)
    ensures Present(token) && jwt.verify(token.value, secret, nowMs).None? ==> g == Denied(InvalidToken)
    ensures (Present(token) && jwt.verify(token.value, secret, nowMs).Some?
             && !Present(jwt.verify(token.value, secret, nowMs).value.claims.userId)) ==> g == Denied(InvalidUserToken)
    ensures (Present(token) && jwt.verify(token.value, secret, nowMs).Some?
             && Present(jwt.verify(token.value, secret, nowMs).value.claims.userId)) ==>
      g == Allowed(jwt.verify(token.value, secret, nowMs).value.claims.userId.value)
    ensures g.Allowed? ==>
      (g.userId != "" && jwt.verify(token.value, secret, nowMs).value.claims.userId == Some(g.userId))
  {
    if !Present(token) then
      Denied(AuthenticationRequired)
    else
      match jwt.verify(token.value, secret, nowMs)
      case None => Denied(InvalidToken)
      case Some(decoded) =>
        if !Present(decoded.claims.userId) then Denied(InvalidUserToken)
        else Allowed(decoded.claims.userId.value)
  }

  /** A token that the login route signed for `{ userId, username }` admits
      its holder to the sheet routes as `userId`, exactly until it expires;
      afterwards the ladder stops at "Invalid token.". */
  lemma IssuedTokenAuthenticates(jwt: Jwt, secret: string, userId: ObjectId, username: string,
                                 issuedMs: nat, nowMs: nat)
    requires Sound(jwt)
    ensures var g := Authenticate(Some(jwt.sign(Claims(Some(userId), Some(username)), secret, Seconds(issuedMs))),
                                  jwt, secret, nowMs);
      if nowMs < TokenExpiryMs(issuedMs) then g == Allowed(userId) else g == Denied(InvalidToken)
  {
    var token := jwt.sign(Claims(Some(userId), Some(username)), secret, Seconds(issuedMs));
    assert token != "";
    assert |userId| == 24;
    var v := jwt.verify(token, secret, nowMs);
    assert Seconds(nowMs) < Seconds(issuedMs) + TokenLifetimeSeconds <==> nowMs < TokenExpiryMs(issuedMs);
  }

  function Reply(status: nat, message: string): Response
  {
    Response(status, Message(message))
  }

  /** The document `insertOne` writes: the owner is the verified caller,
      never a body field, and both dates are the current time. */
  function NewSheet(owner: string, body: SheetBody, nowMs: nat): (s: Sheet)
    ensures s.userId == owner && s.createdAt == nowMs && s.updatedAt == nowMs
    ensures BodyOf(s) == body
  {
    Sheet(owner, body.sheetName, body.description, body.rate, body.minutesEntries,
          body.totalMinutes, body.totalCost, nowMs, nowMs)
  }

  /** The client fields of a stored sheet. */
  function BodyOf(s: Sheet): SheetBody
  {
    SheetBody(s.sheetName, s.description, s.rate, s.minutesEntries, s.totalMinutes, s.totalCost)
  }

  /** The `$set` of an update: the six client fields become the body's and
      `updatedAt` becomes now; the owner and `createdAt` stay as they were.
      The totals are the body's, not recomputed from entries and rate. */
  function SetFields(s: Sheet, body: SheetBody, nowMs: nat): (t: Sheet)
    ensures BodyOf(t) == body && t.updatedAt == nowMs
    ensures t.userId == s.userId && t.createdAt == s.createdAt
  {
    s.(sheetName := body.sheetName, description := body.description, rate := body.rate,
       minutesEntries := body.minutesEntries, totalMinutes := body.totalMinutes,
       totalCost := body.totalCost, updatedAt := nowMs)
  }

  /** An update that rewrites a sheet with its own contents within the
      millisecond of its last update modifies nothing (`modifiedCount` is 0),
      and any other update does modify it. */
  lemma SetFieldsChangesUnlessSame(s: Sheet, body: SheetBody, nowMs: nat)
    ensures SetFields(s, body, nowMs) == s <==> body == BodyOf(s) && nowMs == s.updatedAt
  {
  }

  /** The order of `.sort({ updatedAt: -1, createdAt: -1 })`: `a` may come
      before `b`. */
  predicate ListedBefore(a: Sheet, b: Sheet)
  {
    a.updatedAt > b.updatedAt || (a.updatedAt == b.updatedAt && a.createdAt >= b.createdAt)
  }

  predicate Sorted(list: seq<(ObjectId, Sheet)>)
  {
    forall i, j :: 0 <= i < j < |list| ==> ListedBefore(list[i].1, list[j].1)
  }

  /** Some entry of `list` carries the id `id`. */
  ghost predicate Listed(list: seq<(ObjectId, Sheet)>, id: ObjectId)
  {
    exists i :: 0 <= i < |list| && list[i].0 == id
  }

  /** What `find({ userId }).sort(...)` answers: every sheet of `owner`, each
      once and with its stored contents, no one else's, most recently
      updated first and, among equals, most recently created first. */
  ghost predicate IsOwnerListing(list: seq<(ObjectId, Sheet)>, sheets: map<ObjectId, Sheet>, owner: string)
  {
    && (forall i :: 0 <= i < |list| ==>
          list[i].0 in sheets && sheets[list[i].0] == list[i].1 && list[i].1.userId == owner)
    && (forall id :: id in sheets && sheets[id].userId == owner ==> Listed(list, id))
    && (forall i, j :: 0 <= i < j < |list| ==> list[i].0 != list[j].0)
    && Sorted(list)
  }

  /** Where `x` goes in a sorted listing: after everything that may precede
      it, before everything it may precede. */
  function InsertionPoint(list: seq<(ObjectId, Sheet)>, x: (ObjectId, Sheet)): (k: nat)
    requires Sorted(list)
    ensures k <= |list|
    ensures forall i :: 0 <= i < k ==> ListedBefore(list[i].1, x.1)
    ensures forall i :: k <= i < |list| ==> ListedBefore(x.1, list[i].1)
  {
    if list == [] then 0
    else if ListedBefore(x.1, list[0].1) then 0
    else 1 + InsertionPoint(list[1..], x)
  }

  /** Splicing at the insertion point keeps a listing sorted. */
  lemma InsertKeepsSorted(list: seq<(ObjectId, Sheet)>, x: (ObjectId, Sheet))
    requires Sorted(list)
    ensures Sorted(list[..InsertionPoint(list, x)] + [x] + list[InsertionPoint(list, x)..])
  {
    var k := InsertionPoint(list, x);
    var r := list[..k] + [x] + list[k..];
    forall i, j | 0 <= i < j < |r|
      ensures ListedBefore(r[i].1, r[j].1)
    {
      if j < k {
        assert r[i] == list[i] && r[j] == list[j];
      } else if j == k {
        assert r[i] == list[i] && r[j] == x;
      } else if i < k {
        assert r[i] == list[i] && r[j] == list[j - 1];
      } else if i == k {
        assert r[i] == x && r[j] == list[j - 1];
      } else {
        assert r[i] == list[i - 1] && r[j] == list[j - 1];
      }
    }
  }

  /** A listing of the owner's sheets among those not in `remaining`: the
      invariant of the listing loop, which ends as `IsOwnerListing`. */
  ghost predicate PartialListing(list: seq<(ObjectId, Sheet)>, sheets: map<ObjectId, Sheet>,
                                 owner: string, remaining: set<ObjectId>)
  {
    && (forall i :: 0 <= i < |list| ==>
          list[i].0 in sheets && sheets[list[i].0] == list[i].1 && list[i].1.userId == owner
          && list[i].0 !in remaining)
    && (forall id :: id in sheets && id !in remaining && sheets[id].userId == owner ==> Listed(list, id))
    && (forall i, j :: 0 <= i < j < |list| ==> list[i].0 != list[j].0)
    && Sorted(list)
  }

  /** Taking one owned sheet out of `remaining` and splicing it into the
      listing at position `k`, keeping the order, keeps the loop invariant. */
  lemma InsertStep(list: seq<(ObjectId, Sheet)>, next: seq<(ObjectId, Sheet)>, k: nat,
                   sheets: map<ObjectId, Sheet>, owner: string, remaining: set<ObjectId>, id: ObjectId)
    requires PartialListing(list, sheets, owner, remaining)
    requires id in remaining && id in sheets && sheets[id].userId == owner
    requires IsSplice(list, next, k, (id, sheets[id]))
    requires Sorted(next)
    ensures PartialListing(next, sheets, owner, remaining - {id})
  {
    SpliceEntries(list, next, k, sheets, owner, remaining, id);
    SpliceDistinct(list, next, k, (id, sheets[id]));
    SpliceCovers(list, next, k, sheets, owner, remaining, id);
  }

  /** `next` is `list` with `x` placed at position `k`. */
  ghost predicate IsSplice(list: seq<(ObjectId, Sheet)>, next: seq<(ObjectId, Sheet)>, k: nat, x: (ObjectId, Sheet))
  {
    && k <= |list| && |next| == |list| + 1 && next[k] == x
    && (forall i :: 0 <= i < k ==> next[i] == list[i])
    && (forall i :: k < i < |next| ==> next[i] == list[i - 1])
  }

  lemma SpliceEntries(list: seq<(ObjectId, Sheet)>, next: seq<(ObjectId, Sheet)>, k: nat,
                      sheets: map<ObjectId, Sheet>, owner: string, remaining: set<ObjectId>, id: ObjectId)
    requires forall i :: 0 <= i < |list| ==>
      list[i].0 in sheets && sheets[list[i].0] == list[i].1 && list[i].1.userId == owner && list[i].0 !in remaining
    requires id in remaining && id in sheets && sheets[id].userId == owner
    requires IsSplice(list, next, k, (id, sheets[id]))
    ensures forall i :: 0 <= i < |next| ==>
      next[i].0 in sheets && sheets[next[i].0] == next[i].1 && next[i].1.userId == owner
      && next[i].0 !in remaining - {id}
  {
    forall i | 0 <= i < |next|
      ensures next[i].0 in sheets && sheets[next[i].0] == next[i].1 && next[i].1.userId == owner
      ensures next[i].0 !in remaining - {id}
    {
      if i < k {
        assert next[i] == list[i];
      } else if i > k {
        assert next[i] == list[i - 1];
      }
    }
  }

  lemma SpliceDistinct(list: seq<(ObjectId, Sheet)>, next: seq<(ObjectId, Sheet)>, k: nat, x: (ObjectId, Sheet))
    requires forall i, j :: 0 <= i < j < |list| ==> list[i].0 != list[j].0
    requires forall i :: 0 <= i < |list| ==> list[i].0 != x.0
    requires IsSplice(list, next, k, x)
    ensures forall i, j :: 0 <= i < j < |next| ==> next[i].0 != next[j].0
  {
    forall i, j | 0 <= i < j < |next| ensures next[i].0 != next[j].0 {
      if i != k && j != k {
        assert next[i] == list[if i < k then i else i - 1];
        assert next[j] == list[if j < k then j else j - 1];
      } else if i == k {
        assert next[j] == list[j - 1];
      } else {
        assert next[i] == list[i];
      }
    }
  }

  lemma SpliceCovers(list: seq<(ObjectId, Sheet)>, next: seq<(ObjectId, Sheet)>, k: nat,
                     sheets: map<ObjectId, Sheet>, owner: string, remaining: set<ObjectId>, id: ObjectId)
    requires forall other :: other in sheets && other !in remaining && sheets[other].userId == owner ==> Listed(list, other)
    requires id in sheets
    requires IsSplice(list, next, k, (id, sheets[id]))
    ensures forall other :: other in sheets && other !in remaining - {id} && sheets[other].userId == owner ==> Listed(next, other)
  {
    forall other | other in sheets && other !in remaining - {id} && sheets[other].userId == owner
      ensures Listed(next, other)
    {
      if other == id {
        assert next[k].0 == id;
      } else {
        var i :| 0 <= i < |list| && list[i].0 == other;
        assert next[if i < k then i else i + 1] == list[i];
      }
    }
  }

  /** Where each entry of a splice comes from. */
  lemma SpliceAt(list: seq<(ObjectId, Sheet)>, x: (ObjectId, Sheet), k: nat)
    requires k <= |list|
    ensures IsSplice(list, list[..k] + [x] + list[k..], k, x)
  {
  }

  /** The sheet routes over the `sheets` collection, with the signing secret
      and the token library fixed when the router is built. */
  class SheetRouter {
    var sheets: map<ObjectId, Sheet>
    const jwt: Jwt
    const secret: string

    constructor (jwt: Jwt, secret: string)
      ensures sheets == map[]
      ensures this.jwt == jwt && this.secret == secret
    {
      this.sheets := map[];
      this.jwt := jwt;
      this.secret := secret;
    }

    /** `GET /sheets`: the caller's sheets and nobody else's, in listing order. */
    method List(token: Option<string>, nowMs: nat) returns (r: Response)
      ensures Authenticate(token, jwt, secret, nowMs).Denied? ==>
        r == Reply(401, Authenticate(token, jwt, secret, nowMs).message)
      ensures Authenticate(token, jwt, secret, nowMs).Allowed? ==>
        r.status == 200 && r.body.Sheets?
        && IsOwnerListing(r.body.list, sheets, Authenticate(token, jwt, secret, nowMs).userId)
    {
      var gate := Authenticate(token, jwt, secret, nowMs);
      if gate.Denied? {
        return Reply(401, gate.message);
      }
      var owner := gate.userId;
      var list: seq<(ObjectId, Sheet)> := [];
      var remaining := sheets.Keys;
      while remaining != {}
        invariant remaining <= sheets.Keys
        invariant PartialListing(list, sheets, owner, remaining)
        decreases remaining
      {
        var id :| id in remaining;
        if sheets[id].userId == owner {
          var x := (id, sheets[id]);
          var k := InsertionPoint(list, x);
          var next := list[..k] + [x] + list[k..];
          SpliceAt(list, x, k);
          InsertKeepsSorted(list, x);
          InsertStep(list, next, k, sheets, owner, remaining, id);
          list := next;
        }
        remaining := remaining - {id};
      }
      assert PartialListing(list, sheets, owner, {});
      r := Response(200, Sheets(list));
    }

    /** `POST /sheets`. `newId` is the `_id` the driver generates; one that
        is already taken is the duplicate-key error answered with 500. */
    method Create(token: Option<string>, body: SheetBody, nowMs: nat, newId: ObjectId) returns (r: Response)
      modifies this
      ensures Authenticate(token, jwt, secret, nowMs).Denied? ==>
        r == Reply(401, Authenticate(token, jwt, secret, nowMs).message) && sheets == old(sheets)
      ensures Authenticate(token, jwt, secret, nowMs).Allowed? && !Truthy(body.sheetName) ==>
        r == Reply(400, SheetNameRequired) && sheets == old(sheets)
      ensures Authenticate(token, jwt, secret, nowMs).Allowed? && Truthy(body.sheetName) ==>
        if newId in old(sheets) then
          r == Reply(500, InternalError) && sheets == old(sheets)
        else
          r == Response(201, Created(SheetCreated, newId))
          && sheets == old(sheets)[newId := NewSheet(Authenticate(token, jwt, secret, nowMs).userId, body, nowMs)]
    {
      var gate := Authenticate(token, jwt, secret, nowMs);
      if gate.Denied? {
        return Reply(401, gate.message);
      }
      if !Truthy(body.sheetName) {
        return Reply(400, SheetNameRequired);
      }
      var sheet := NewSheet(gate.userId, body, nowMs);
      if newId in sheets {
        return Reply(500, InternalError);
      }
      sheets := sheets[newId := sheet];
      r := Response(201, Created(SheetCreated, newId));
    }

    /** `PUT /sheets/:id`. The filter is the id and the verified owner
        together; the answer is 404 when nothing was modified, which covers
        a missing id, another user's sheet, and an update that changes no
        field. An id that is not an ObjectId makes the route answer 500. */
    method Update(token: Option<string>, rawId: string, body: SheetBody, nowMs: nat) returns (r: Response)
      modifies this
      ensures sheets.Keys == old(sheets).Keys
      ensures forall id :: id in old(sheets) ==> sheets[id].userId == old(sheets)[id].userId
      ensures Authenticate(token, jwt, secret, nowMs).Denied? ==>
        r == Reply(401, Authenticate(token, jwt, secret, nowMs).message) && sheets == old(sheets)
      ensures Authenticate(token, jwt, secret, nowMs).Allowed? && !Truthy(body.sheetName) ==>
        r == Reply(400, SheetNameRequired) && sheets == old(sheets)
      ensures Authenticate(token, jwt, secret, nowMs).Allowed? && Truthy(body.sheetName)
              && ParseObjectId(rawId).None? ==>
        r == Reply(500, InternalError) && sheets == old(sheets)
      ensures Authenticate(token, jwt, secret, nowMs).Allowed? && Truthy(body.sheetName)
              && ParseObjectId(rawId).Some? ==>
        var owner, id := Authenticate(token, jwt, secret, nowMs).userId, ParseObjectId(rawId).value;
        if id in old(sheets) && old(sheets)[id].userId == owner
           && SetFields(old(sheets)[id], body, nowMs) != old(sheets)[id] then
          r == Reply(200, SheetUpdated) && sheets == old(sheets)[id := SetFields(old(sheets)[id], body, nowMs)]
        else
          r == Reply(404, SheetNotFound) && sheets == old(sheets)
    {
      var gate := Authenticate(token, jwt, secret, nowMs);
      if gate.Denied? {
        return Reply(401, gate.message);
      }
      if !Truthy(body.sheetName) {
        return Reply(400, SheetNameRequired);
      }
      var parsed := ParseObjectId(rawId);
      if parsed.None? {
        return Reply(500, InternalError);
      }
      var id := parsed.value;
      var modifiedCount := 0;
      if id in sheets && sheets[id].userId == gate.userId {
        var updated := SetFields(sheets[id], body, nowMs);
        if updated != sheets[id] {
          sheets := sheets[id := updated];
          modifiedCount := 1;
        }
      }
      if modifiedCount == 0 {
        return Reply(404, SheetNotFound);
      }
      r := Reply(200, SheetUpdated);
    }

    /** The verified caller of a request carrying `token` owns `s`. */
    ghost predicate OwnedByCaller(s: Sheet, token: Option<string>, nowMs: nat)
      reads this
    {
      var g := Authenticate(token, jwt, secret, nowMs);
      g.Allowed? && s.userId == g.userId
    }

    /** An update never touches a sheet the verified caller does not own. */
    method UpdateSparesOthers(token: Option<string>, rawId: string, body: SheetBody, nowMs: nat) returns (r: Response)
      modifies this
      ensures forall id :: id in old(sheets) && !OwnedByCaller(old(sheets)[id], token, nowMs) ==>
        id in sheets && sheets[id] == old(sheets)[id]
    {
      r := Update(token, rawId, body, nowMs);
    }
  }
}
