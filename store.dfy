/** The database the handlers share: the three tables, the invariants their
    column constraints and the handlers maintain, and the two query forms the
    handlers use (`query.get(id)` and `filter_by(...).all()` / `.first()`). */
module Store {
  import opened Web
  import opened UserModel
  import opened CardModel

  type CommentId = nat

  /** A row of `comments`: its message, the card it is attached to and its
      author. */
  datatype Comment = Comment(id: CommentId, message: Option<string>, cardId: CardId, userId: UserId)

  /** The committed contents of the database. The `next` counters are the
      identifiers the next insert into each table receives. */
  datatype Tables = Tables(
    users: map<UserId, User>,
    cards: map<CardId, Card>,
    comments: map<CommentId, Comment>,
    nextUserId: nat,
    nextCardId: nat,
    nextCommentId: nat)

  /** No two users share an email (the UNIQUE column of `users`). */
  predicate UniqueEmails(users: map<UserId, User>) {
    forall i, j :: i in users && j in users && i != j ==> users[i].email != users[j].email
  }

  /** Every row is stored under its own primary key, below the next key of
      its table; every card and every comment refers to an existing user. */
  predicate WellFormed(t: Tables) {
    && (forall id :: id in t.users ==> t.users[id].id == id && id < t.nextUserId)
    && (forall id :: id in t.cards ==> t.cards[id].id == id && id < t.nextCardId && t.cards[id].userId in t.users)
    && (forall id :: id in t.comments ==>
          t.comments[id].id == id && id < t.nextCommentId && t.comments[id].userId in t.users)
    && UniqueEmails(t.users)
  }

  // The table updates the handlers commit, and why each keeps the invariant.

  lemma InsertUserKeepsWellFormed(t: Tables, u: User)
    requires WellFormed(t) && u.id == t.nextUserId
    requires forall id :: id in t.users ==> t.users[id].email != u.email
    ensures WellFormed(t.(users := t.users[u.id := u], nextUserId := t.nextUserId + 1))
  {
  }

  lemma InsertCardKeepsWellFormed(t: Tables, c: Card)
    requires WellFormed(t) && c.id == t.nextCardId && c.userId in t.users
    ensures WellFormed(t.(cards := t.cards[c.id := c], nextCardId := t.nextCardId + 1))
  {
  }

  lemma ReplaceCardKeepsWellFormed(t: Tables, c: Card)
    requires WellFormed(t) && c.id in t.cards && c.userId in t.users
    ensures WellFormed(t.(cards := t.cards[c.id := c]))
  {
  }

  lemma RemoveCardKeepsWellFormed(t: Tables, id: CardId)
    requires WellFormed(t)
    ensures WellFormed(t.(cards := t.cards - {id}))
  {
  }

  lemma InsertCommentKeepsWellFormed(t: Tables, c: Comment)
    requires WellFormed(t) && c.id == t.nextCommentId && c.userId in t.users
    ensures WellFormed(t.(comments := t.comments[c.id := c], nextCommentId := t.nextCommentId + 1))
  {
  }

  lemma RemoveCommentKeepsWellFormed(t: Tables, id: CommentId)
    requires WellFormed(t)
    ensures WellFormed(t.(comments := t.comments - {id}))
  {
  }

  /** What a mutating handler produces: its response and the contents of the
      database after its commit (or after the rollback of a failed one). */
  datatype Outcome<+T> = Outcome(response: Response<T>, after: Tables)

  /** `Model.query.get(id)`. */
  function Get<T>(m: map<nat, T>, id: nat): Option<T> {
    if id in m then Some(m[id]) else None
  }

  /** A scan of the keys `lo` to `hi` of a table that keeps the rows passing
      `keep`, in ascending key order: the order the list handlers return. */
  function ScanIds<T>(m: map<nat, T>, keep: T -> bool, lo: nat, hi: nat): (ids: seq<nat>)
    decreases hi - lo
    ensures forall id :: id in ids <==> lo <= id < hi && id in m && keep(m[id])
    ensures forall i, j :: 0 <= i < j < |ids| ==> ids[i] < ids[j]
  {
    if lo >= hi then []
    else if lo in m && keep(m[lo]) then
      var rest := ScanIds(m, keep, lo + 1, hi);
      assert forall k :: 0 <= k < |rest| ==> rest[k] in rest;
      [lo] + rest
    else ScanIds(m, keep, lo + 1, hi)
  }

  /** The rows stored under a list of keys. */
  function Rows<T>(m: map<nat, T>, ids: seq<nat>): (r: seq<T>)
    requires forall id :: id in ids ==> id in m
    ensures |r| == |ids| && forall i :: 0 <= i < |ids| ==> r[i] == m[ids[i]]
    ensures forall id :: id in ids ==> m[id] in r
  {
    var r := seq(|ids|, i requires 0 <= i < |ids| => m[ids[i]]);
    assert forall id :: id in ids ==> m[id] in r by {
      forall id | id in ids ensures m[id] in r {
        var i :| 0 <= i < |ids| && ids[i] == id;
        assert r[i] == m[id];
      }
    }
    r
  }

  /** `Card.query.filter_by(user_id=owner).all()`: exactly the stored cards of
      `owner`, each once, in ascending id order. */
  function CardsOf(t: Tables, owner: UserId): (r: seq<Card>)
    requires WellFormed(t)
    ensures forall i :: 0 <= i < |r| ==> r[i].id in t.cards && t.cards[r[i].id] == r[i] && r[i].userId == owner
    ensures forall id :: id in t.cards && t.cards[id].userId == owner ==> t.cards[id] in r
    ensures forall i, j :: 0 <= i < j < |r| ==> r[i].id < r[j].id
  {
    var ids := ScanIds(t.cards, (c: Card) => c.userId == owner, 0, t.nextCardId);
    Rows(t.cards, ids)
  }

  /** `Comment.query.filter_by(user_id=author).all()`: exactly the stored
      comments of `author`, each once, in ascending id order. */
  function CommentsOf(t: Tables, author: UserId): (r: seq<Comment>)
    requires WellFormed(t)
    ensures forall i :: 0 <= i < |r| ==>
      r[i].id in t.comments && t.comments[r[i].id] == r[i] && r[i].userId == author
    ensures forall id :: id in t.comments && t.comments[id].userId == author ==> t.comments[id] in r
    ensures forall i, j :: 0 <= i < j < |r| ==> r[i].id < r[j].id
  {
    var ids := ScanIds(t.comments, (c: Comment) => c.userId == author, 0, t.nextCommentId);
    Rows(t.comments, ids)
  }

  /** `User.query.filter_by(email=email).first()`. A null email matches no
      row, since the column is NOT NULL. */
  function UserByEmail(t: Tables, email: Option<string>): (r: Option<User>)
    requires WellFormed(t)
    ensures r.Some? ==> email.Some? && r.value.id in t.users && t.users[r.value.id] == r.value
                        && r.value.email == email.value
    ensures r.None? ==> email.None? || forall id :: id in t.users ==> t.users[id].email != email.value
  {
    match email
    case None => None
    case Some(e) =>
      var ids := ScanIds(t.users, (u: User) => u.email == e, 0, t.nextUserId);
      if |ids| == 0 then None else Some(t.users[ids[0]])
  }

  /** The class the handlers act on: the three tables and their key counters,
      updated in place by each committed handler. */
  class Database {
    var users: map<UserId, User>
    var cards: map<CardId, Card>
    var comments: map<CommentId, Comment>
    var nextUserId: nat
    var nextCardId: nat
    var nextCommentId: nat

    function Contents(): Tables
      reads this
    {
      Tables(users, cards, comments, nextUserId, nextCardId, nextCommentId)
    }

    ghost predicate Valid()
      reads this
    {
      WellFormed(Contents())
    }

    /** `db create`: empty tables whose keys start at 1. */
    constructor ()
      ensures Valid()
      ensures Contents() == Tables(map[], map[], map[], 1, 1, 1)
    {
      users, cards, comments := map[], map[], map[];
      nextUserId, nextCardId, nextCommentId := 1, 1, 1;
    }
  }
}
