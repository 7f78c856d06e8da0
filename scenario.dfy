/** The two routers together, sharing one signing secret: a user signs up,
    logs in, and works on a sheet with the cookie the login set. */
module Scenario {
  import opened Json
  import opened Tokens
  import opened ObjectIds
  import Auth = AuthRoutes
  import Sheets = SheetsRoutes

  function Text(s: string): Json
  {
    JStr(s)
  }

  /** With one sheet in the store, the owner's listing is that sheet alone. */
  lemma OnlySheetListed(list: seq<(ObjectId, Sheets.Sheet)>, sheets: map<ObjectId, Sheets.Sheet>,
                        owner: string, id: ObjectId)
    requires Sheets.IsOwnerListing(list, sheets, owner)
    requires sheets.Keys == {id} && sheets[id].userId == owner
    ensures list == [(id, sheets[id])]
  {
    assert Sheets.Listed(list, id);
    assert forall i :: 0 <= i < |list| ==> list[i].0 == id;
    assert list[|list| - 1].0 == list[0].0;
  }

  /** Sign up "alice", log in, create "Week1", list it, rename it, list
      again, all within the hour the token lives; a request without the
      cookie is turned away. `aliceId` and `sheetId` are the ids the driver
      generates, `t0` to `t3` the clock at each request. */
  method AliceWorksOnASheet(jwt: Jwt, bcrypt: Bcrypt, secret: string,
                            aliceId: ObjectId, sheetId: ObjectId, salt: nat,
                            t0: nat, t1: nat, t2: nat, t3: nat)
    requires Sound(jwt) && HashSound(bcrypt)
    requires t0 <= t1 < t2 < t3 < TokenExpiryMs(t0)
  {
    var auth := new Auth.AuthRouter(jwt, bcrypt, secret);
    var store := new Sheets.SheetRouter(jwt, secret);
    var alice := Auth.Credentials(Some("alice"), Some("pw1"));

    var signedUp := auth.Signup(alice, aliceId, salt);
    assert signedUp.status == 201;
    assert auth.users[aliceId].username == "alice";
    assert bcrypt.compare("pw1", auth.users[aliceId].password);

    var loggedIn := auth.Login(alice, t0);
    assert loggedIn.status == 200;
    var token := Some(loggedIn.cookie.token);
    Sheets.IssuedTokenAuthenticates(jwt, secret, aliceId, "alice", t0, t1);
    Sheets.IssuedTokenAuthenticates(jwt, secret, aliceId, "alice", t0, t2);
    Sheets.IssuedTokenAuthenticates(jwt, secret, aliceId, "alice", t0, t3);

    var week1 := Sheets.SheetBody(Text("Week1"), JNull, Text("20"),
                                  JArr([JObj(map["date" := Text("2024-01-01"), "minutes" := JNum(60.0)])]),
                                  JNum(60.0), Text("20.00"));
    var created := store.Create(token, week1, t1, sheetId);
    assert created == Sheets.Response(201, Sheets.Created(Sheets.SheetCreated, sheetId));

    var listed := store.List(token, t1);
    assert listed.status == 200;
    OnlySheetListed(listed.body.list, store.sheets, aliceId, sheetId);
    assert listed.body.list[0].1.sheetName == Text("Week1");

    ParseCanonical(sheetId);
    var edited := week1.(sheetName := Text("Week1-edited"));
    var updated := store.Update(token, sheetId, edited, t2);
    assert updated.status == 200;
    assert store.sheets[sheetId].sheetName == Text("Week1-edited");
    assert store.sheets[sheetId].updatedAt == t2 && store.sheets[sheetId].createdAt == t1;

    var anonymous := store.List(None, t3);
    assert anonymous == Sheets.Reply(401, Sheets.AuthenticationRequired);
  }
}
