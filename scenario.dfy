/** A client of the handlers: Ann registers, logs in and creates a card; a
    second registration with her email is refused; Bob registers and is
    refused Ann's card. Everything asserted here follows from the handlers'
    contracts and the lemmas about them. */
module Scenario {
  import opened Web
  import opened UserModel
  import opened CardModel
  import opened Store
  import opened CardController
  import opened AuthController

  function Ann(hash: string -> string): User {
    User(1, "Ann", "ann@x.com", hash("pw"), false)
  }

  method AnnCreatesCard(hash: string -> string, check: (string, string) -> bool, today: Date)
    returns (db: Database)
    requires check(hash("pw"), "pw")
    ensures fresh(db) && db.Valid() && db.users == map[1 := Ann(hash)]
    ensures 1 in db.cards && db.cards[1].userId == 1 && db.cards[1].date == Some(today)
  {
    db := new Database();
    var account := RegisterPayload(Text("Ann"), Text("ann@x.com"), Text("pw"));
    RegisterAddsUser(db.Contents(), account, hash);
    var ann := Register(db, account, hash);
    assert db.users == map[1 := Ann(hash)];

    var token := Login(db.Contents(), LoginPayload(Text("ann@x.com"), Text("pw")), check);
    assert token == Ok(Token(1));

    var card := CardPayload(Text("Write tests"), Text("d"), Text("To Do"), Text("High"), Absent);
    CreateCardAddsOwnedCard(db.Contents(), token.body.userId, card, today);
    var created := CreateCard(db, token.body.userId, card, today);
  }

  method SecondAnnRefused(db: Database, hash: string -> string)
    requires db.Valid() && db.users == map[1 := Ann(hash)]
    modifies db
    ensures db.Contents() == old(db.Contents())
  {
    var account := RegisterPayload(Text("Ann"), Text("ann@x.com"), Text("other"));
    RegisterDuplicateRejected(db.Contents(), account, hash, 1);
    var again := Register(db, account, hash);
    assert again == Err(BadRequest, UserExistsMessage);
  }

  method BobRefusedAnnsCard(db: Database, hash: string -> string)
    requires db.Valid() && db.users == map[1 := Ann(hash)]
    requires 1 in db.cards && db.cards[1].userId == 1
    modifies db
  {
    var account := RegisterPayload(Text("Bob"), Text("bob@x.com"), Text("pw2"));
    assert "ann@x.com"[0] != "bob@x.com"[0];
    var bobId := db.nextUserId;
    RegisterAddsUser(db.Contents(), account, hash);
    var bob := Register(db, account, hash);
    assert bobId in db.users && bobId != 1 && db.cards[1].userId == 1;

    var peek := GetCard(db.Contents(), bobId, 1);
    assert peek == Err(Unauthorized, CardController.UnauthorizedMessage);
  }

  method AnnAndBob(hash: string -> string, check: (string, string) -> bool, today: Date)
    requires check(hash("pw"), "pw")
  {
    var db := AnnCreatesCard(hash, check, today);
    SecondAnnRefused(db, hash);
    BobRefusedAnnsCard(db, hash);
  }
}
