/** The `/cards` routes. Every route runs for a caller whose token resolved to
    an existing user; the read routes are functions of the committed tables,
    the write routes are methods on the database whose effect is stated by a
    step function of the tables before the request. */
module CardController {
  import opened Web
  import opened UserModel
  import opened CardModel
  import opened Store

  const CardNotFoundMessage := "404, Card not found"
  const UnauthorizedMessage := "Unauthorized"

  /** The JSON body of a create or update request. */
  datatype CardPayload = CardPayload(title: Field, description: Field, status: Field, priority: Field, date: Field)

  /** The two methods the update route accepts. */
  datatype Verb = Put | Patch

  /** The keys `create_card` reads with `request.json[...]`; a missing one
      raises KeyError. */
  predicate HasCreateKeys(p: CardPayload) {
    p.title != Absent && p.description != Absent && p.status != Absent && p.priority != Absent
  }

  /** The keys a PUT reads with `request.json[...]`. */
  predicate HasAllKeys(p: CardPayload) {
    HasCreateKeys(p) && p.date != Absent
  }

  /** GET /cards/: the caller's cards, serialised by `cards_schema`. */
  function GetCardsByUser(t: Tables, caller: UserId): (r: Json)
    requires WellFormed(t) && caller in t.users
    ensures r.JList? && |r.items| == |CardsOf(t, caller)|
    ensures forall i :: 0 <= i < |r.items| ==>
      r.items[i] == CardSchemaDump(CardsOf(t, caller)[i], t.users[caller])
  {
    CardsSchemaDump(CardsOf(t, caller), t.users)
  }

  /** GET /cards/<id>: 404 for a missing card whoever asks, then 401 unless
      the caller owns it. */
  function GetCard(t: Tables, caller: UserId, id: CardId): (r: Response<Json>)
    requires WellFormed(t) && caller in t.users
    ensures id !in t.cards ==> r == Err(NotFound, CardNotFoundMessage)
    ensures id in t.cards && t.cards[id].userId != caller ==> r == Err(Unauthorized, UnauthorizedMessage)
    ensures r.Ok? <==> id in t.cards && t.cards[id].userId == caller
    ensures r.Ok? ==> r.body == CardSchemaDump(t.cards[id], t.users[caller])
  {
    var user := t.users[caller];
    match Get(t.cards, id)
    case None => Err(NotFound, CardNotFoundMessage)
    case Some(card) =>
      if user.id != card.userId then Err(Unauthorized, UnauthorizedMessage)
      else Ok(CardSchemaDump(card, user))
  }

  /** POST /cards/: a new card owned by the caller and dated `today`. A null
      title fails the NOT NULL constraint at commit. */
  function CreateCardStep(t: Tables, caller: UserId, p: CardPayload, today: Date): (o: Outcome<Json>)
    requires WellFormed(t) && caller in t.users && HasCreateKeys(p)
    ensures WellFormed(o.after)
  {
    if p.title.Null? then Outcome(Err(ServerError, InternalErrorMessage), t)
    else
      var card := Card(t.nextCardId, p.title.text, p.description.Value(), p.status.Value(),
                       p.priority.Value(), Some(today), caller);
      InsertCardKeepsWellFormed(t, card);
      Outcome(Ok(CardSchemaDump(card, t.users[caller])),
              t.(cards := t.cards[card.id := card], nextCardId := t.nextCardId + 1))
  }

  method CreateCard(db: Database, caller: UserId, p: CardPayload, today: Date) returns (r: Response<Json>)
    requires db.Valid() && caller in db.users && HasCreateKeys(p)
    modifies db
    ensures Outcome(r, db.Contents()) == CreateCardStep(old(db.Contents()), caller, p, today)
    ensures db.Valid()
  {
    var user := db.users[caller];
    var title, description, status, priority := p.title, p.description, p.status, p.priority;
    if title.Null? {
      return Err(ServerError, InternalErrorMessage);
    }
    var card := Card(db.nextCardId, title.text, description.Value(), status.Value(),
                     priority.Value(), Some(today), user.id);
    db.cards := db.cards[card.id := card];
    db.nextCardId := db.nextCardId + 1;
    r := Ok(CardSchemaDump(card, user));
  }

  /** PATCH: a field is overwritten only when the payload value for it is
      truthy. */
  function Patched(c: Card, p: CardPayload): Card {
    c.(title := if p.title.Truthy() then p.title.text else c.title,
       description := if p.description.Truthy() then Some(p.description.text) else c.description,
       status := if p.status.Truthy() then Some(p.status.text) else c.status,
       priority := if p.priority.Truthy() then Some(p.priority.text) else c.priority,
       date := if p.date.Truthy() then Some(p.date.text) else c.date)
  }

  /** PUT: all five fields take the payload values, null included. */
  function Replaced(c: Card, p: CardPayload): Card
    requires p.title.Text?
  {
    c.(title := p.title.text, description := p.description.Value(), status := p.status.Value(),
       priority := p.priority.Value(), date := p.date.Value())
  }

  /** The card an update that passes its checks stores. */
  function Updated(c: Card, verb: Verb, p: CardPayload): (r: Card)
    requires verb == Put ==> p.title.Text?
    ensures r.id == c.id && r.userId == c.userId
  {
    if verb == Patch then Patched(c, p) else Replaced(c, p)
  }

  /** PUT or PATCH /cards/<id>: 404, then 401, then the update; a PUT with a
      null title fails at commit. */
  function UpdateCardStep(t: Tables, caller: UserId, id: CardId, verb: Verb, p: CardPayload): (o: Outcome<Json>)
    requires WellFormed(t) && caller in t.users
    requires verb == Put && id in t.cards && t.cards[id].userId == caller ==> HasAllKeys(p)
    ensures WellFormed(o.after)
  {
    var user := t.users[caller];
    match Get(t.cards, id)
    case None => Outcome(Err(NotFound, CardNotFoundMessage), t)
    case Some(card) =>
      if user.id != card.userId then Outcome(Err(Unauthorized, UnauthorizedMessage), t)
      else if verb == Put && p.title.Null? then Outcome(Err(ServerError, InternalErrorMessage), t)
      else
        var updated := Updated(card, verb, p);
        ReplaceCardKeepsWellFormed(t, updated);
        Outcome(Ok(CardSchemaDump(updated, user)), t.(cards := t.cards[id := updated]))
  }

  /** The PATCH branch: each field assigned in turn when its payload value is
      truthy. */
  method ApplyPatch(c: Card, p: CardPayload) returns (card: Card)
    ensures card == Patched(c, p)
  {
    card := c;
    if p.title.Truthy() {
      card := card.(title := p.title.text);
    }
    if p.description.Truthy() {
      card := card.(description := Some(p.description.text));
    }
    if p.status.Truthy() {
      card := card.(status := Some(p.status.text));
    }
    if p.priority.Truthy() {
      card := card.(priority := Some(p.priority.text));
    }
    if p.date.Truthy() {
      card := card.(date := Some(p.date.text));
    }
  }

  /** The PUT branch: the five fields assigned in turn from the payload. */
  method ApplyPut(c: Card, p: CardPayload) returns (card: Card)
    requires p.title.Text?
    ensures card == Replaced(c, p)
  {
    card := c.(title := p.title.text);
    card := card.(description := p.description.Value());
    card := card.(status := p.status.Value());
    card := card.(priority := p.priority.Value());
    card := card.(date := p.date.Value());
  }

  /** The outcome of an update that passes its checks, stated once so the
      method and the lemmas below need not unfold every branch. */
  lemma UpdateCardSucceeds(t: Tables, caller: UserId, id: CardId, verb: Verb, p: CardPayload)
    requires WellFormed(t) && caller in t.users && id in t.cards && t.cards[id].userId == caller
    requires verb == Put ==> HasAllKeys(p) && p.title.Text?
    ensures var updated := Updated(t.cards[id], verb, p);
            UpdateCardStep(t, caller, id, verb, p)
              == Outcome(Ok(CardSchemaDump(updated, t.users[caller])), t.(cards := t.cards[id := updated]))
  {
  }

  method UpdateCard(db: Database, caller: UserId, id: CardId, verb: Verb, p: CardPayload) returns (r: Response<Json>)
    requires db.Valid() && caller in db.users
    requires verb == Put && id in db.cards && db.cards[id].userId == caller ==> HasAllKeys(p)
    modifies db
    ensures Outcome(r, db.Contents()) == UpdateCardStep(old(db.Contents()), caller, id, verb, p)
    ensures db.Valid()
  {
    var user := db.users[caller];
    var found := Get(db.cards, id);
    if found.None? {
      return Err(NotFound, CardNotFoundMessage);
    }
    var card := found.value;
    if user.id != card.userId {
      return Err(Unauthorized, UnauthorizedMessage);
    }
    if verb == Patch {
      card := ApplyPatch(card, p);
    } else {
      if p.title.Null? {
        // the commit violates the NOT NULL title column and is rolled back
        return Err(ServerError, InternalErrorMessage);
      }
      card := ApplyPut(card, p);
    }
    UpdateCardSucceeds(old(db.Contents()), caller, id, verb, p);
    db.cards := db.cards[id := card];
    r := Ok(CardSchemaDump(card, user));
  }

  /** DELETE /cards/<id>: 404, then 401, then the card is removed. */
  function DeleteCardStep(t: Tables, caller: UserId, id: CardId): (o: Outcome<string>)
    requires WellFormed(t) && caller in t.users
    ensures WellFormed(o.after)
  {
    var user := t.users[caller];
    match Get(t.cards, id)
    case None => Outcome(Err(NotFound, CardNotFoundMessage), t)
    case Some(card) =>
      if user.id != card.userId then Outcome(Err(Unauthorized, UnauthorizedMessage), t)
      else
        RemoveCardKeepsWellFormed(t, id);
        Outcome(Ok("Card " + card.title + " deleted successfully"), t.(cards := t.cards - {id}))
  }

  method DeleteCard(db: Database, caller: UserId, id: CardId) returns (r: Response<string>)
    requires db.Valid() && caller in db.users
    modifies db
    ensures Outcome(r, db.Contents()) == DeleteCardStep(old(db.Contents()), caller, id)
    ensures db.Valid()
  {
    var user := db.users[caller];
    var found := Get(db.cards, id);
    if found.None? {
      return Err(NotFound, CardNotFoundMessage);
    }
    var card := found.value;
    if user.id != card.userId {
      return Err(Unauthorized, UnauthorizedMessage);
    }
    db.cards := db.cards - {id};
    r := Ok("Card " + card.title + " deleted successfully");
  }

  // Properties of the card routes.

  /** A successful create adds exactly one card, under a fresh id, owned by
      the caller, dated today and carrying the payload's four fields; nothing
      else changes. */
  lemma CreateCardAddsOwnedCard(t: Tables, caller: UserId, p: CardPayload, today: Date)
    requires WellFormed(t) && caller in t.users && HasCreateKeys(p) && p.title.Text?
    ensures var o := CreateCardStep(t, caller, p, today);
            var id := t.nextCardId;
            && id !in t.cards && id in o.after.cards
            && o.after.cards == t.cards[id := o.after.cards[id]]
            && |o.after.cards| == |t.cards| + 1
            && o.after.cards[id].userId == caller
            && o.after.cards[id].date == Some(today)
            && o.after.cards[id].title == p.title.text
            && o.after.cards[id].description == p.description.Value()
            && o.after.cards[id].status == p.status.Value()
            && o.after.cards[id].priority == p.priority.Value()
            && o.after.users == t.users && o.after.comments == t.comments
            && o.response == Ok(CardSchemaDump(o.after.cards[id], t.users[caller]))
  {
  }

  /** A create whose title is null is refused and changes nothing. */
  lemma CreateCardNullTitleRejected(t: Tables, caller: UserId, p: CardPayload, today: Date)
    requires WellFormed(t) && caller in t.users && HasCreateKeys(p) && p.title.Null?
    ensures CreateCardStep(t, caller, p, today) == Outcome(Err(ServerError, InternalErrorMessage), t)
  {
  }

  /** PATCH writes a field exactly when the payload value for it is truthy,
      and never touches the id or the owner. */
  lemma PatchWritesOnlyTruthyFields(c: Card, p: CardPayload)
    ensures var r := Patched(c, p);
            && r.id == c.id && r.userId == c.userId
            && (p.title.Truthy() ==> r.title == p.title.text)
            && (!p.title.Truthy() ==> r.title == c.title)
            && (p.description.Truthy() ==> r.description == Some(p.description.text))
            && (!p.description.Truthy() ==> r.description == c.description)
            && (p.status.Truthy() ==> r.status == Some(p.status.text))
            && (!p.status.Truthy() ==> r.status == c.status)
            && (p.priority.Truthy() ==> r.priority == Some(p.priority.text))
            && (!p.priority.Truthy() ==> r.priority == c.priority)
            && (p.date.Truthy() ==> r.date == Some(p.date.text))
            && (!p.date.Truthy() ==> r.date == c.date)
  {
  }

  /** Applying a PATCH payload to a card it has already been applied to
      changes nothing more. */
  lemma PatchedIdempotent(c: Card, p: CardPayload)
    ensures Patched(Patched(c, p), p) == Patched(c, p)
  {
  }

  /** Sending the same PATCH twice gives the same response and the same
      tables as sending it once. */
  lemma PatchIdempotent(t: Tables, caller: UserId, id: CardId, p: CardPayload)
    requires WellFormed(t) && caller in t.users
    ensures var o := UpdateCardStep(t, caller, id, Patch, p);
            UpdateCardStep(o.after, caller, id, Patch, p) == o
  {
    var o := UpdateCardStep(t, caller, id, Patch, p);
    if id in t.cards && t.cards[id].userId == caller {
      var c := Patched(t.cards[id], p);
      var once := t.(cards := t.cards[id := c]);
      UpdateCardSucceeds(t, caller, id, Patch, p);
      assert o == Outcome(Ok(CardSchemaDump(c, t.users[caller])), once);
      UpdateCardSucceeds(once, caller, id, Patch, p);
      PatchedIdempotent(t.cards[id], p);
      assert once.(cards := once.cards[id := c]) == once;
    } else {
      UpdateRejectedLeavesStore(t, caller, id, Patch, p);
    }
  }

  /** An update changes at most the requested card, keeps its id and owner,
      and leaves every other card, the users and the comments as they were. */
  lemma UpdateTouchesOnlyTarget(t: Tables, caller: UserId, id: CardId, verb: Verb, p: CardPayload)
    requires WellFormed(t) && caller in t.users
    requires verb == Put && id in t.cards && t.cards[id].userId == caller ==> HasAllKeys(p)
    ensures var o := UpdateCardStep(t, caller, id, verb, p);
            && o.after.cards.Keys == t.cards.Keys
            && (forall k :: k in t.cards && k != id ==> o.after.cards[k] == t.cards[k])
            && (id in t.cards ==> o.after.cards[id].id == id && o.after.cards[id].userId == t.cards[id].userId)
            && o.after.users == t.users && o.after.comments == t.comments
  {
    var o := UpdateCardStep(t, caller, id, verb, p);
    if id in t.cards && t.cards[id].userId == caller && !(verb == Put && p.title.Null?) {
      UpdateCardSucceeds(t, caller, id, verb, p);
      assert o.after == t.(cards := t.cards[id := Updated(t.cards[id], verb, p)]);
    } else {
      UpdateRejectedLeavesStore(t, caller, id, verb, p);
      assert o.after == t;
    }
  }

  /** PUT sets all five of title, description, status, priority and date to
      the payload values. */
  lemma PutReplacesAllFields(t: Tables, caller: UserId, id: CardId, p: CardPayload)
    requires WellFormed(t) && caller in t.users && id in t.cards && t.cards[id].userId == caller
    requires HasAllKeys(p) && p.title.Text?
    ensures var o := UpdateCardStep(t, caller, id, Put, p);
            && o.after.cards[id] == Card(id, p.title.text, p.description.Value(), p.status.Value(),
                                         p.priority.Value(), p.date.Value(), caller)
            && o.response == Ok(CardSchemaDump(o.after.cards[id], t.users[caller]))
  {
  }

  /** An update answers 404 for a missing card before looking at the owner,
      401 for a card of another user, and a refused update changes nothing. */
  lemma UpdateRejectedLeavesStore(t: Tables, caller: UserId, id: CardId, verb: Verb, p: CardPayload)
    requires WellFormed(t) && caller in t.users
    requires verb == Put && id in t.cards && t.cards[id].userId == caller ==> HasAllKeys(p)
    ensures var o := UpdateCardStep(t, caller, id, verb, p);
            && (id !in t.cards ==> o.response == Err(NotFound, CardNotFoundMessage))
            && (id in t.cards && t.cards[id].userId != caller ==>
                  o.response == Err(Unauthorized, UnauthorizedMessage))
            && (o.response.Ok? <==> id in t.cards && t.cards[id].userId == caller && !(verb == Put && p.title.Null?))
            && (o.response.Err? ==> o.after == t)
  {
  }

  /** A successful delete removes exactly the requested card; every other
      card, the users and the comments stay as they were. */
  lemma DeleteCardRemovesExactlyOne(t: Tables, caller: UserId, id: CardId)
    requires WellFormed(t) && caller in t.users && id in t.cards && t.cards[id].userId == caller
    ensures var o := DeleteCardStep(t, caller, id);
            && o.response == Ok("Card " + t.cards[id].title + " deleted successfully")
            && o.after.cards.Keys == t.cards.Keys - {id}
            && |o.after.cards| == |t.cards| - 1
            && (forall k :: k in o.after.cards ==> o.after.cards[k] == t.cards[k])
            && o.after.users == t.users && o.after.comments == t.comments
  {
  }

  /** A delete answers 404 for a missing card, 401 for a card of another user,
      and then changes nothing. */
  lemma DeleteCardRejectedLeavesStore(t: Tables, caller: UserId, id: CardId)
    requires WellFormed(t) && caller in t.users
    ensures var o := DeleteCardStep(t, caller, id);
            && (id !in t.cards ==> o.response == Err(NotFound, CardNotFoundMessage))
            && (id in t.cards && t.cards[id].userId != caller ==>
                  o.response == Err(Unauthorized, UnauthorizedMessage))
            && (o.response.Err? ==> o.after == t)
  {
  }
}
