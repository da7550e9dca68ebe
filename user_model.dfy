/** The `users` table and its marshmallow schema. */
module UserModel {
  import opened Web

  type UserId = nat

  /** A row of `users`. Name, email and the stored password hash are NOT NULL
      columns, so they are plain strings here; `is_admin` has a column default. */
  datatype User = User(id: UserId, name: string, email: string, password: string, isAdmin: bool)

  /** A user inserted without an explicit `is_admin` gets the column default. */
  function NewUser(id: UserId, name: string, email: string, password: string): (u: User)
    ensures !u.isAdmin
    ensures u.id == id && u.name == name && u.email == email && u.password == password
  {
    User(id, name, email, password, false)
  }

  /** The fields `UserSchema.Meta` lists. */
  const UserSchemaFields: set<string> := {"id", "name", "email", "password", "is_admin"}

  /** The attributes of a user, under their column names. */
  function UserAttributes(u: User): map<string, Json> {
    map["id" := JInt(u.id), "name" := JStr(u.name), "email" := JStr(u.email),
        "password" := JStr(u.password), "is_admin" := JBool(u.isAdmin)]
  }

  /** `user_schema`: UserSchema with the password excluded. */
  function UserSchemaDump(u: User): (j: Json)
    ensures j.JObj? && j.fields.Keys == {"id", "name", "email", "is_admin"}
    ensures "password" !in j.fields
    ensures j.fields["id"] == JInt(u.id) && j.fields["name"] == JStr(u.name)
    ensures j.fields["email"] == JStr(u.email) && j.fields["is_admin"] == JBool(u.isAdmin)
  {
    var attrs := UserAttributes(u);
    JObj(Project(attrs, UserSchemaFields - {"password"}))
  }

  /** `users_schema`: the same exclusion applied to every user of a list. */
  function UsersSchemaDump(us: seq<User>): (j: Json)
    ensures j.JList? && |j.items| == |us|
    ensures forall i :: 0 <= i < |us| ==> j.items[i] == UserSchemaDump(us[i])
    ensures forall i :: 0 <= i < |us| ==> j.items[i].JObj? && "password" !in j.items[i].fields
  {
    JList(seq(|us|, i requires 0 <= i < |us| => UserSchemaDump(us[i])))
  }
}
