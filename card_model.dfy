/** The `cards` table and its marshmallow schema. */
module CardModel {
  import opened Web
  import opened UserModel

  type CardId = nat

  /** A calendar date, as the ISO text the schema emits for it. */
  type Date = string

  /** A row of `cards`. The title and the owner are NOT NULL columns; the other
      columns are nullable. */
  datatype Card = Card(
    id: CardId,
    title: string,
    description: Option<string>,
    status: Option<string>,
    priority: Option<string>,
    date: Option<Date>,
    userId: UserId)

  /** The fields `CardSchema.Meta` lists: `user_id` is not among them, the
      owner appears through the nested `user`. */
  const CardSchemaFields: set<string> := {"id", "title", "description", "status", "priority", "date", "user"}

  /** The fields of the nested owner (`only=("id", "name", "email")`). */
  const NestedUserFields: set<string> := {"id", "name", "email"}

  /** The nested owner of a serialised card. */
  function NestedUser(owner: User): (j: Json)
    ensures j.JObj? && j.fields.Keys == NestedUserFields
    ensures "password" !in j.fields && "is_admin" !in j.fields
    ensures j.fields["id"] == JInt(owner.id)
  {
    JObj(map["id" := JInt(owner.id), "name" := JStr(owner.name), "email" := JStr(owner.email)])
  }

  /** The nested owner is the owner's attributes cut down to the `only`
      list. */
  lemma NestedUserIsProjection(owner: User)
    ensures NestedUser(owner) == JObj(Project(UserAttributes(owner), NestedUserFields))
  {
  }

  /** The attributes of a card: its columns and its `user` relationship. */
  function CardAttributes(c: Card, owner: User): map<string, Json> {
    map["id" := JInt(c.id), "title" := JStr(c.title),
        "description" := OptionalString(c.description),
        "status" := OptionalString(c.status),
        "priority" := OptionalString(c.priority),
        "date" := OptionalString(c.date),
        "user_id" := JInt(c.userId),
        "user" := NestedUser(owner)]
  }

  /** `card_schema`: exactly the seven Meta fields, the owner nested without
      a password. */
  function CardSchemaDump(c: Card, owner: User): (j: Json)
    requires owner.id == c.userId
    ensures j.JObj? && j.fields.Keys == CardSchemaFields
    ensures "user_id" !in j.fields
    ensures j.fields["user"].JObj? && j.fields["user"].fields.Keys == NestedUserFields
    ensures "password" !in j.fields["user"].fields
    ensures j.fields["user"].fields["id"] == JInt(c.userId)
    ensures j.fields["id"] == JInt(c.id) && j.fields["title"] == JStr(c.title)
    ensures j.fields["date"] == OptionalString(c.date)
  {
    JObj(map["id" := JInt(c.id), "title" := JStr(c.title),
             "description" := OptionalString(c.description),
             "status" := OptionalString(c.status),
             "priority" := OptionalString(c.priority),
             "date" := OptionalString(c.date),
             "user" := NestedUser(owner)])
  }

  /** A serialised card is the card's attributes cut down to the Meta
      fields: the relationship is dumped and the foreign key dropped. */
  lemma CardSchemaDumpIsProjection(c: Card, owner: User)
    requires owner.id == c.userId
    ensures CardSchemaDump(c, owner) == JObj(Project(CardAttributes(c, owner), CardSchemaFields))
  {
  }

  /** `cards_schema`: `card_schema` applied to every card of a list, each with
      its owner taken from `users`. */
  function CardsSchemaDump(cs: seq<Card>, users: map<UserId, User>): (j: Json)
    requires forall i :: 0 <= i < |cs| ==> cs[i].userId in users && users[cs[i].userId].id == cs[i].userId
    ensures j.JList? && |j.items| == |cs|
    ensures forall i :: 0 <= i < |cs| ==> j.items[i] == CardSchemaDump(cs[i], users[cs[i].userId])
  {
    JList(seq(|cs|, i requires 0 <= i < |cs| => CardSchemaDump(cs[i], users[cs[i].userId])))
  }
}
