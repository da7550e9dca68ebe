# Cards backend: owner-gated cards and comments

A model of the request handling of a small Flask backend. Users register and
log in; each user then creates, reads, updates and deletes their own *cards*
(tasks), and attaches *comments* to cards they own.

The database is a class, `Store.Database`. Its fields are three tables held
as maps from primary key to row (`users`, `cards`, `comments`), plus the keys
the next insert into each table receives. `Store.Tables` is a snapshot of
those fields as a value. `Store.WellFormed` is the invariant every handler
keeps:

- each row is stored under its own id;
- every card and every comment refers to an existing user;
- no two users share an email.

Each route handler runs for a caller whose token has already been resolved to
an existing user id. Handlers come in two kinds:

- Read-only handlers (`GetCardsByUser`, `GetCard`, `GetCommentsByUser`,
  `GetComment`, `Login`) are functions of the committed tables, so they
  cannot change the store.
- Handlers that write (`CreateCard`, `UpdateCard`, `DeleteCard`,
  `CreateComment`, `DeleteComment`, `Register`) are methods on the database.
  Each works step by step, as the route does. Its postcondition says that
  its response and the new tables equal what a *step function*
  (`CreateCardStep`, …) gives for the tables before the request.

The lemmas beside the step functions state the rules the routes follow:

- existence is checked before ownership: a missing row is 404, a row owned
  by someone else is 401;
- a refused request changes nothing;
- creators become owners;
- a new comment needs the owner of its parent card;
- deleting a comment is authorised by the comment's author;
- PATCH writes only truthy fields, and applying it twice has the same effect
  as applying it once; PUT replaces all five fields;
- registration refuses a duplicate email;
- login gives the same 401 for an unknown email and for a wrong password.

Responses are `Web.Response` values: `Ok(body)`, or `Err(status, message)`
carrying the route's own message. Card and user bodies are JSON values built
the way the marshmallow schemas build them (`CardSchemaDump`,
`UserSchemaDump`). A card body is written out field by field, and a lemma
proves it equal to the card's attributes restricted to the schema's
`Meta.fields` (`Web.Project`); the nested owner is likewise proved equal
to the owner's attributes restricted to its `only` list, and a user body is
that projection directly. Their
field sets are proved:

- a card body has exactly its seven schema fields;
- the nested owner has only id, name and email;
- a user body never carries the password.

`Scenario.AnnAndBob` is a client of the handlers. Ann registers, logs in
and creates a card; a second registration with her email is refused; Bob
registers and is refused Ann's card. Its assertions follow from the handler
contracts and the lemmas alone.

Non-null columns are non-optional fields of the row types: the card title and
owner, and the user name, email and password. A request that would store a
null in one of them ends in a server error (500), and the tables stay as they
were, as with a failed commit.

Three behaviours of the code worth stating plainly:

- The code validates no card field: there is no title pattern and no status
  or priority enumeration.
- `delete_card` deletes only the card row.
- PATCH uses Python truthiness, so an empty string leaves a field unchanged.

## Model

| member | source | states |
|---|---|---|
| `UserModel.NewUser` | models/user.py:10 | a user created without `is_admin` is not an admin; it holds the given id, name, email and password |
| `UserModel.UserSchemaDump` | models/user.py:12-18 | a serialised user has exactly id, name, email and is_admin, never the password, with the user's own values |
| `UserModel.UsersSchemaDump` | models/user.py:19 | a serialised user list has one entry per user, each the single-user form and none with a password |
| `CardModel.NestedUser` | models/card.py:45 | the owner nested in a card exposes exactly id, name and email (no password, no admin flag) |
| `CardModel.NestedUserIsProjection` | models/card.py:45 | the nested owner is the owner's attributes restricted to the `only` list id, name, email |
| `CardModel.CardSchemaDump` | models/card.py:44-51 | a serialised card has exactly id, title, description, status, priority, date and user; no user_id; the nested user is the owner without password |
| `CardModel.CardSchemaDumpIsProjection` | models/card.py:44-51 | a serialised card is the card's attributes (its columns and its `user` relationship) restricted to the Meta fields |
| `CardModel.CardsSchemaDump` | models/card.py:52 | a serialised card list has one entry per card, each the single-card form with that card's owner |
| `Store.ScanIds` | controllers/card_controller.py:28 | a filtered scan returns exactly the keys in range whose rows pass the filter, in strictly ascending order |
| `Store.Rows` | controllers/card_controller.py:28 | the rows fetched for a list of keys are the stored rows, in the same order, and include every listed key's row |
| `Store.CardsOf` | controllers/card_controller.py:28 | the card query returns only stored cards of the owner and every such card, each once in ascending id order |
| `Store.CommentsOf` | controllers/comment_controller.py:31 | the comment query returns only stored comments of the author and every such comment, each once in ascending id order |
| `Store.UserByEmail` | controllers/auth_controller.py:16 | the email lookup finds a stored user with that email, or reports that no stored user has it (a null email matches none) |
| `Store.InsertUserKeepsWellFormed` | models/user.py:6-8 | inserting a user under the next id with an email no stored user has keeps keys, counters and email uniqueness intact |
| `Store.InsertCardKeepsWellFormed` | models/card.py:21-39 | inserting a card under the next id, owned by an existing user, keeps the invariant |
| `Store.ReplaceCardKeepsWellFormed` | models/card.py:21-39 | overwriting a stored card with one of the same id and an existing owner keeps the invariant |
| `Store.RemoveCardKeepsWellFormed` | models/card.py:21-39 | removing a card keeps the invariant |
| `Store.InsertCommentKeepsWellFormed` | controllers/comment_controller.py:108-116 | inserting a comment under the next id, written by an existing user, keeps the invariant |
| `Store.RemoveCommentKeepsWellFormed` | controllers/comment_controller.py:156-157 | removing a comment keeps the invariant |
| `Store.Database.constructor` | controllers/cli_controllers.py:8-11 | a freshly created database has empty tables and satisfies the invariant |
| `CardController.GetCardsByUser` | controllers/card_controller.py:24-31 | the list route answers the serialised form of exactly the caller's cards |
| `CardController.GetCard` | controllers/card_controller.py:50-66 | a missing card is 404 for any caller; an existing card of another owner is 401 with no card data; success exactly when the caller owns it, answering its serialised form |
| `CardController.CreateCardStep` | controllers/card_controller.py:89-106 | creating a card keeps the store invariant (fresh id, owner an existing user) |
| `CardController.CreateCard` | controllers/card_controller.py:89-106 | the create route's response and new tables are those of `CreateCardStep`, and the invariant holds |
| `CardController.CreateCardAddsOwnedCard` | controllers/card_controller.py:98-103 | a successful create adds exactly one card under a fresh id, owned by the caller, dated today, with the payload's title, description, status and priority; nothing else changes |
| `CardController.CreateCardNullTitleRejected` | models/card.py:24 | a create with a null title fails (NOT NULL title) and changes nothing |
| `CardController.UpdateCardStep` | controllers/card_controller.py:136-173 | updating a card keeps the store invariant |
| `CardController.Updated` | controllers/card_controller.py:149-167 | the card an accepted update stores keeps its id and its owner |
| `CardController.ApplyPatch` | controllers/card_controller.py:151-160 | the five guarded assignments of the PATCH branch produce exactly the patched card |
| `CardController.ApplyPut` | controllers/card_controller.py:163-167 | the five assignments of the PUT branch produce exactly the replaced card |
| `CardController.UpdateCardSucceeds` | controllers/card_controller.py:149-173 | an update the caller is entitled to answers the serialised updated card and stores it in place of the old one, nothing else changing |
| `CardController.UpdateCard` | controllers/card_controller.py:136-173 | the update route, assigning fields one at a time, has the response and new tables of `UpdateCardStep` |
| `CardController.PatchWritesOnlyTruthyFields` | controllers/card_controller.py:151-160 | PATCH overwrites each of the five fields exactly when its payload value is truthy and keeps it otherwise; id and owner never change |
| `CardController.PatchedIdempotent` | controllers/card_controller.py:151-160 | applying a PATCH payload to a card already patched with it changes nothing |
| `CardController.PatchIdempotent` | controllers/card_controller.py:149-160 | applying the same PATCH twice gives the same response and tables as applying it once |
| `CardController.UpdateTouchesOnlyTarget` | controllers/card_controller.py:149-170 | an update changes at most the requested card, keeps its id and owner, and leaves all other cards, users and comments unchanged |
| `CardController.PutReplacesAllFields` | controllers/card_controller.py:161-167 | PUT sets title, description, status, priority and date to the payload values |
| `CardController.UpdateRejectedLeavesStore` | controllers/card_controller.py:139-147 | an update of a missing card is 404, of another user's card 401, succeeds exactly when the caller owns it (and a PUT title is not null), and a refused update changes nothing |
| `CardController.DeleteCardStep` | controllers/card_controller.py:192-214 | deleting a card keeps the store invariant |
| `CardController.DeleteCard` | controllers/card_controller.py:192-214 | the delete route's response and new tables are those of `DeleteCardStep` |
| `CardController.DeleteCardRemovesExactlyOne` | controllers/card_controller.py:207-214 | a successful delete removes exactly that card id, keeps every other card, the users and the comments, and answers the success message with the title |
| `CardController.DeleteCardRejectedLeavesStore` | controllers/card_controller.py:196-203 | a delete of a missing card is 404, of another user's card 401, and a refused delete changes nothing |
| `CommentController.ReferencedCard` | controllers/comment_controller.py:91 | the card looked up for a new comment exists exactly when card_id is a non-negative stored id, and is that card |
| `CommentController.GetCommentsByUser` | controllers/comment_controller.py:27-34 | the list route returns exactly the caller's stored comments: each entry is the stored row of a comment the caller wrote, every such comment appears, and ids strictly ascend so none repeats |
| `CommentController.GetComment` | controllers/comment_controller.py:53-70 | a missing comment is 404 for any caller; another author's comment is 401; success exactly when the caller wrote it, answering that comment |
| `CommentController.CreateCommentStep` | controllers/comment_controller.py:91-119 | creating a comment keeps the store invariant |
| `CommentController.CreateComment` | controllers/comment_controller.py:91-119 | the create route's response and new tables are those of `CreateCommentStep` |
| `CommentController.CreateCommentMissingCardIsNotFound` | controllers/comment_controller.py:91-96 | a comment on a missing card is 404 whoever asks, and changes nothing |
| `CommentController.CreateCommentNeedsCardOwner` | controllers/comment_controller.py:99-105 | a comment on another user's card is 401 and no comment is added |
| `CommentController.CreateCommentAddsOne` | controllers/comment_controller.py:108-116 | a successful create adds exactly one comment under a fresh id, by the caller, on the requested card, with the payload message; cards and users unchanged |
| `CommentController.DeleteCommentStep` | controllers/comment_controller.py:139-160 | deleting a comment keeps the store invariant |
| `CommentController.DeleteComment` | controllers/comment_controller.py:139-160 | the delete route's response and new tables are those of `DeleteCommentStep` |
| `CommentController.DeleteCommentAuthorisesByAuthor` | controllers/comment_controller.py:147-153 | deletion is decided by the comment's own author: anyone else, the card's owner included, gets 401 with nothing changed; the author succeeds |
| `CommentController.DeleteCommentRemovesOnlyTarget` | controllers/comment_controller.py:142-157 | a missing comment is 404; a refused delete changes nothing; a successful one removes only that comment |
| `AuthController.Login` | controllers/auth_controller.py:12-23 | an unknown email and a failed password check give the same 401; a matching password gives a token bound to that user's id; a token is only issued for a stored user whose password checks |
| `AuthController.RegisterStep` | controllers/auth_controller.py:27-42 | registering keeps the store invariant, in particular unique emails |
| `AuthController.Register` | controllers/auth_controller.py:27-42 | the register route's response and new tables are those of `RegisterStep` |
| `AuthController.RegisterDuplicateRejected` | controllers/auth_controller.py:32-35 | registering an email already stored is 400 and changes nothing |
| `AuthController.RegisterIncompleteRejected` | controllers/auth_controller.py:37-40 | with the email free, a missing name or email or a missing or empty password gives 500 and stores nothing |
| `AuthController.RegisterAddsUser` | controllers/auth_controller.py:37-42 | a successful registration adds exactly one non-admin user under a fresh id with the given name and email and the hash of the password, and answers that user's serialised form (id, name, email, is_admin; no password) |
| `AuthController.RegisterTwiceRejected` | controllers/auth_controller.py:32-40 | registering the same email twice: the second attempt is 400 and leaves the first user as it was |
| `AuthController.LoginAfterRegister` | controllers/auth_controller.py:16-40 | after a registration, logging in with the same credentials yields a token bound to the new user, given that the check accepts a password against its own hash |

## Left out

- Flask routing, `request.json` parsing and `jsonify` are not modelled. Payloads are records of fields that are missing, null or a string; JSON numbers, booleans or lists in those fields are not modelled. The exception is a comment's `card_id`, which is an integer or null and is always present.
- JWT issuance and decoding are not modelled. The caller's id is a parameter, assumed to name a stored user (the handlers dereference it unchecked), and a token is `Token(userId)`. Missing, invalid or expired tokens are rejected before any handler runs and are not modelled.
- bcrypt is represented by the parameters `hash` and `check`. That the stored hash differs from the plaintext is not provable of an uninterpreted `hash`, so the model states only that the stored password is `hash(password)`. flask-bcrypt's refusal of an empty password at registration is modelled as a server error, and so is a missing (null) password reaching `hash` or `check`.
- SQLAlchemy sessions, the identity map and commits are not modelled; each handler is one atomic step. Rows are values: the working copy an update edits is written back at the end, so two handles aliasing one row are not represented. The database's id generator is a counter per table starting at 1; the id reuse some databases allow after deleting the highest row is not modelled.
- RegisterStep: the column widths of `users` (name 80, email 120, password 255 characters) are not modelled, so an over-long name or email succeeds in the model. Whether such a commit fails depends on the database backend: SQLite does not enforce VARCHAR length, PostgreSQL does and answers 500.
- `date.today()` is the parameter `today`. Dates are their ISO text, and the conversion of a JSON date string into the date column on PUT and PATCH (backend-dependent) is not modelled.
- What deleting a card does to its comments is decided by `models/comment.py`, which is not part of this model: a delete cascade would remove them, a plain backref would null their `card_id`, and a database-enforced foreign key would refuse the delete. The model keeps the comments unchanged as its own choice, and the invariant does not demand that a comment's card exists.
- DeleteCardRemovesExactlyOne: its `o.after.comments == t.comments` is the model's choice of keeping comments, not a promise of the code.
- The comment schema is not part of this model, so the comment routes answer with the comment records rather than their JSON.
- Title format and the status and priority enumerations are not modelled: the code validates none of them.
- `controllers/cli_controllers.py` drop and seed are left out: they are database I/O and printing. Only `db create` appears, as the `Database` constructor.
- `utils.auth_as_admin` is left out: it is unused by the modelled routes.
- KeyError paths are preconditions, not behaviour: `HasCreateKeys`, `HasAllKeys` for a PUT that passes its checks, a present `message` for a comment that passes its checks, and a present `card_id`.
- List order is ascending id. The queries have no ORDER BY, so this is one admissible order, not one the database promises.
- Concurrent requests are not modelled. That includes two registrations of one email racing past the duplicate check, where the UNIQUE column would refuse the second insert.
