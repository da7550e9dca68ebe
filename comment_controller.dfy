/** The `/comments` routes, in the same form as the card routes. The comment
    schema is not part of this model, so the routes answer with the comment
    records themselves. */
module CommentController {
  import opened Web
  import opened UserModel
  import opened CardModel
  import opened Store

  const CommentNotFoundMessage := "Comment not found"
  const CardNotFoundMessage := "Card not found"
  const UnauthorizedMessage := "Unauthorized"

  /** The JSON body of a create request: `card_id` (an integer or null) and
      `message`. */
  datatype CommentPayload = CommentPayload(cardId: Option<int>, message: Field)

  /** `Card.query.get(request.json["card_id"])`: null and negative ids match
      no card. */
  function ReferencedCard(t: Tables, cardId: Option<int>): (r: Option<Card>)
    ensures r.Some? <==> cardId.Some? && cardId.value >= 0 && cardId.value in t.cards
    ensures r.Some? ==> r.value == t.cards[cardId.value]
  {
    if cardId.Some? && cardId.value >= 0 then Get(t.cards, cardId.value) else None
  }

  /** The create request passes both checks and goes on to read
      `request.json["message"]`. */
  predicate PassesChecks(t: Tables, caller: UserId, p: CommentPayload) {
    ReferencedCard(t, p.cardId).Some? && ReferencedCard(t, p.cardId).value.userId == caller
  }

  /** GET /comments/: the caller's comments. */
  function GetCommentsByUser(t: Tables, caller: UserId): (r: seq<Comment>)
    requires WellFormed(t) && caller in t.users
    ensures forall i :: 0 <= i < |r| ==>
              r[i].id in t.comments && t.comments[r[i].id] == r[i] && r[i].userId == caller
    ensures forall i, j :: 0 <= i < j < |r| ==> r[i].id < r[j].id
    ensures forall id :: id in t.comments && t.comments[id].userId == caller ==> t.comments[id] in r
  {
    CommentsOf(t, t.users[caller].id)
  }

  /** GET /comments/<id>: 404 for a missing comment whoever asks, then 401
      unless the caller wrote it. */
  function GetComment(t: Tables, caller: UserId, id: CommentId): (r: Response<Comment>)
    requires WellFormed(t) && caller in t.users
    ensures id !in t.comments ==> r == Err(NotFound, CommentNotFoundMessage)
    ensures id in t.comments && t.comments[id].userId != caller ==> r == Err(Unauthorized, UnauthorizedMessage)
    ensures r.Ok? <==> id in t.comments && t.comments[id].userId == caller
    ensures r.Ok? ==> r.body == t.comments[id]
  {
    var user := t.users[caller];
    match Get(t.comments, id)
    case None => Err(NotFound, CommentNotFoundMessage)
    case Some(comment) =>
      if user.id != comment.userId then Err(Unauthorized, UnauthorizedMessage)
      else Ok(comment)
  }

  /** POST /comments/: 404 when the referenced card is missing, 401 unless the
      caller owns that card, then a new comment written by the caller. The
      message key is read only once both checks have passed. */
  function CreateCommentStep(t: Tables, caller: UserId, p: CommentPayload): (o: Outcome<Comment>)
    requires WellFormed(t) && caller in t.users
    requires PassesChecks(t, caller, p) ==> p.message != Absent
    ensures WellFormed(o.after)
  {
    var user := t.users[caller];
    match ReferencedCard(t, p.cardId)
    case None => Outcome(Err(NotFound, CardNotFoundMessage), t)
    case Some(card) =>
      if user.id != card.userId then Outcome(Err(Unauthorized, UnauthorizedMessage), t)
      else
        var comment := Comment(t.nextCommentId, p.message.Value(), card.id, user.id);
        InsertCommentKeepsWellFormed(t, comment);
        Outcome(Ok(comment), t.(comments := t.comments[comment.id := comment], nextCommentId := t.nextCommentId + 1))
  }

  method CreateComment(db: Database, caller: UserId, p: CommentPayload) returns (r: Response<Comment>)
    requires db.Valid() && caller in db.users
    requires PassesChecks(db.Contents(), caller, p) ==> p.message != Absent
    modifies db
    ensures Outcome(r, db.Contents()) == CreateCommentStep(old(db.Contents()), caller, p)
    ensures db.Valid()
  {
    var found := ReferencedCard(db.Contents(), p.cardId);
    if found.None? {
      return Err(NotFound, CardNotFoundMessage);
    }
    var card := found.value;
    var user := db.users[caller];
    if user.id != card.userId {
      return Err(Unauthorized, UnauthorizedMessage);
    }
    var comment := Comment(db.nextCommentId, p.message.Value(), card.id, user.id);
    db.comments := db.comments[comment.id := comment];
    db.nextCommentId := db.nextCommentId + 1;
    r := Ok(comment);
  }

  /** DELETE /comments/<id>: 404, then 401 unless the caller wrote the
      comment (the owner of its card is not consulted), then the comment is
      removed. */
  function DeleteCommentStep(t: Tables, caller: UserId, id: CommentId): (o: Outcome<string>)
    requires WellFormed(t) && caller in t.users
    ensures WellFormed(o.after)
  {
    match Get(t.comments, id)
    case None => Outcome(Err(NotFound, CommentNotFoundMessage), t)
    case Some(comment) =>
      if t.users[caller].id != comment.userId then Outcome(Err(Unauthorized, UnauthorizedMessage), t)
      else
        RemoveCommentKeepsWellFormed(t, id);
        Outcome(Ok("Comment deleted successfully"), t.(comments := t.comments - {id}))
  }

  method DeleteComment(db: Database, caller: UserId, id: CommentId) returns (r: Response<string>)
    requires db.Valid() && caller in db.users
    modifies db
    ensures Outcome(r, db.Contents()) == DeleteCommentStep(old(db.Contents()), caller, id)
    ensures db.Valid()
  {
    var found := Get(db.comments, id);
    if found.None? {
      return Err(NotFound, CommentNotFoundMessage);
    }
    var comment := found.value;
    var user := db.users[caller];
    if user.id != comment.userId {
      return Err(Unauthorized, UnauthorizedMessage);
    }
    db.comments := db.comments - {id};
    r := Ok("Comment deleted successfully");
  }

  // Properties of the comment routes.

  /** A comment on a missing card is answered 404 whoever asks, before any
      ownership test, and changes nothing. */
  lemma CreateCommentMissingCardIsNotFound(t: Tables, caller: UserId, p: CommentPayload)
    requires WellFormed(t) && caller in t.users
    requires !(p.cardId.Some? && p.cardId.value >= 0 && p.cardId.value in t.cards)
    ensures CreateCommentStep(t, caller, p) == Outcome(Err(NotFound, CardNotFoundMessage), t)
  {
  }

  /** A comment on a card of another user is answered 401 and no comment is
      added. */
  lemma CreateCommentNeedsCardOwner(t: Tables, caller: UserId, p: CommentPayload)
    requires WellFormed(t) && caller in t.users
    requires p.cardId.Some? && p.cardId.value >= 0 && p.cardId.value in t.cards
    requires t.cards[p.cardId.value].userId != caller
    ensures CreateCommentStep(t, caller, p) == Outcome(Err(Unauthorized, UnauthorizedMessage), t)
  {
  }

  /** A successful create adds exactly one comment, under a fresh id, written
      by the caller, on the requested card, with the payload's message. */
  lemma CreateCommentAddsOne(t: Tables, caller: UserId, p: CommentPayload)
    requires WellFormed(t) && caller in t.users
    requires p.cardId.Some? && p.cardId.value >= 0 && p.cardId.value in t.cards
    requires t.cards[p.cardId.value].userId == caller && p.message != Absent
    ensures var o := CreateCommentStep(t, caller, p);
            var id := t.nextCommentId;
            && id !in t.comments
            && o.after.comments == t.comments[id := Comment(id, p.message.Value(), p.cardId.value, caller)]
            && |o.after.comments| == |t.comments| + 1
            && o.response == Ok(o.after.comments[id])
            && o.after.cards == t.cards && o.after.users == t.users
  {
  }

  /** Deleting a comment is decided by the comment's author alone: the owner
      of its card is refused unless they wrote it, and the author succeeds
      whoever owns the card. */
  lemma DeleteCommentAuthorisesByAuthor(t: Tables, caller: UserId, id: CommentId)
    requires WellFormed(t) && caller in t.users && id in t.comments
    ensures var o := DeleteCommentStep(t, caller, id);
            && (t.comments[id].userId != caller ==> o == Outcome(Err(Unauthorized, UnauthorizedMessage), t))
            && (t.comments[id].userId == caller ==> o.response.Ok?)
  {
  }

  /** A delete removes only the requested comment; a refused one (404 or 401)
      changes nothing. */
  lemma DeleteCommentRemovesOnlyTarget(t: Tables, caller: UserId, id: CommentId)
    requires WellFormed(t) && caller in t.users
    ensures var o := DeleteCommentStep(t, caller, id);
            && (id !in t.comments ==> o.response == Err(NotFound, CommentNotFoundMessage))
            && (o.response.Err? ==> o.after == t)
            && (o.response.Ok? ==> o.after == t.(comments := t.comments - {id})
                                   && |o.after.comments| == |t.comments| - 1)
  {
  }
}
