# Recipe-box backend: authentication and access decisions

This project models the self-contained logic in the Flask backend of a recipe-keeping app (`app.py`), where users register, log in and own recipes:

- **Bearer tokens on a user** (`get_token`, `revoke_token`, `check_token`, `verify_token`). A user row keeps a token and its expiry. Asking for a token reuses the current one while more than 60 seconds of validity remain. Otherwise a new random token is issued that expires `exp` seconds from now (86400 by default). Revoking moves the expiry 61 seconds into the past. A token is refused once its expiry is strictly before the current time.
- **Basic auth** (`verify_password`). It finds the first user whose e-mail equals the lower-cased login and compares the password against the stored hash.
- **Partial updates** (`User.from_dict`, `Ingredient.from_dict`). Each copies only the whitelisted keys present in the JSON payload. The user's password goes through the password hash.
- **Handler decisions** (`post_user`, `login`, `put_recipe`, `delete_recipe`). Each maps a request and the store to an HTTP status and a new store. `put_recipe` and `delete_recipe` check existence (404) before ownership (403). A rejected request leaves the store unchanged. Deleting a recipe cascades to its ingredients.

Time is a whole number of seconds passed in as `now`. The random token value is passed in as `drawn`. The password hash is a function parameter `hash`.

Files:
- `wrappers.dfy`: `Option`.
- `text.dfy`: the lower-casing used on e-mails.
- `tokens.dfy`: the token state machine on values.
- `models.dfy`: the `User` and `Ingredient` row objects and the `Recipe` value.
- `auth.dfy`: the lookups and the two ways of authenticating.
- `handlers.dfy`: the store (`Database`) and the handler decisions.

The user table is a sequence of row objects in query order, so `.first()` is the earliest match. Recipes and ingredients are maps from primary key to row. A Python exception that escapes a handler (`KeyError` on a missing payload key, `AttributeError` on a null relation) is the status `ServerError` (500).

Two behaviours of the code may be unexpected; the model follows the code:
- A duplicate e-mail check that ignores case might be expected, since logins are lower-cased. `post_user` compares the e-mail exactly as sent.
- A token might be expected to be valid only while its expiry is in the future. `check_token` also accepts a token at the exact second of its expiry.

## Model

| member | source | states |
|---|---|---|
| `Text.Lower` | app.py:26 | `email.lower()` keeps the length, lower-cases each character and leaves no upper-case letter |
| `Text.LowerIdempotent` | app.py:26 | lower-casing an already lower-cased login changes nothing |
| `Text.LowerFixesExactlyLowerCase` | app.py:26 | a string is left unchanged by lower-casing exactly when it holds no upper-case letter |
| `Tokens.Issue` | app.py:53-60 | `get_token` always leaves a token installed, its expiry set, and returns the installed token |
| `Tokens.IssueReuses` | app.py:55-56 | with a non-empty token whose expiry is more than 60 s after `now`, the same token is returned and neither column changes |
| `Tokens.IssueReissues` | app.py:57-58 | otherwise the drawn value becomes the token, with expiry `now + exp`, and is returned |
| `Tokens.IssuedTokenLive` | app.py:55-68 | the returned token passes the expiry check at every moment from `now` to `now + min(exp, 60)`, so at `now` itself |
| `Tokens.IssueAgainReuses` | app.py:55-58 | a second `get_token` before the issued token is within a minute of expiry returns the same token and changes nothing |
| `Tokens.RevokedNotLive` | app.py:62-69 | a revoked token fails the expiry check at every time from the revocation on |
| `Tokens.RevokedThenReissued` | app.py:55-63 | after a revocation, `get_token` at any later time issues the drawn value and never reuses the old token |
| `Models.PatchedIgnoresOtherKeys` | app.py:87-88 | a payload with no whitelisted key leaves the user's e-mail, password, username and avatar unchanged |
| `Models.PatchedComposes` | app.py:87-92 | two successive partial updates equal one update with the merged payload, later keys winning |
| `Models.PatchedStoresHash` | app.py:89-90 | a present password is stored as `hash(password)`; it equals the plaintext only if the hash maps it to itself |
| `Models.User.constructor` | app.py:39-47 | a new user row has every column null |
| `Models.User.Register` | app.py:104-107 | registration sets username, e-mail and the hashed password from the payload and leaves the avatar unchanged |
| `Models.User.GetToken` | app.py:53-60 | the method's return value and new token columns are exactly those of `Tokens.Issue` on the old columns; the token-implies-expiry invariant is kept |
| `Models.User.RevokeToken` | app.py:62-63 | the new token columns are exactly `Tokens.Revoke` of the old ones |
| `Models.User.FromDict` | app.py:86-92 | after the loop over the four whitelisted fields, the profile is the old profile patched by the payload; token and id are untouched |
| `Models.PatchedPortionIdempotent` | app.py:174-177 | applying the same ingredient payload twice equals applying it once |
| `Models.Ingredient.FromDict` | app.py:174-177 | after the loop over qty, unit and item, each present key overwrites its column and the rest keep their values |
| `Auth.First` | app.py:67 | `.first()` returns the position of a row whose column equals the key, with no match before it, and nothing exactly when no row matches; a null key matches null columns |
| `Auth.RetokenKeepsTableValid` | app.py:42-58 | after one row is given a token, tokens stay unique and the table's constraints hold, provided the other rows keep their tokens and the token is the row's own or one no row held |
| `Auth.CheckToken` | app.py:65-70 | a returned user is in the table, holds the token and has not expired; a token nobody holds yields no one |
| `Auth.VerifyToken` | app.py:32-36 | an empty bearer token resolves to no one; a non-empty one resolves exactly as `check_token` does, so (by `CheckTokenFindsHolder`) to its holder while the token is live |
| `Auth.CheckTokenFindsHolder` | app.py:66-70 | with unique tokens, the holder of a token is returned exactly while its expiry is not in the past |
| `Auth.RevokedTokenRefused` | app.py:62-69 | once a user's token is revoked at `now`, `check_token` with that token yields no one at any later time |
| `Auth.VerifyPassword` | app.py:24-30 | the user looked up has the lower-cased login as e-mail; no user exactly when none has it; authentication succeeds exactly when the password hashes to the stored hash |
| `Auth.VerifyPasswordFindsOwner` | app.py:24-30 | with unique e-mails, the user whose e-mail is the lower-cased login is found, and is authenticated exactly when the password hashes to the stored hash |
| `Auth.OwnerAuthenticatesUnderEveryCasing` | app.py:24-30 | with unique e-mails, a user stored under a lower-cased e-mail with the hash of `password` is authenticated under every casing of that e-mail |
| `Auth.MixedCaseEmailNeverLooked` | app.py:26 | a user whose stored e-mail has an upper-case letter is never the one basic auth looks up |
| `Handlers.PutRecipeOutcome` | app.py:359-367 | 404 exactly for an absent id; 403 exactly for a recipe owned by someone else; 200 only for the owner when the edit succeeds, replacing that recipe, which keeps its owner because the edit never writes `user_id`; 500 exactly in the remaining cases (no id in the payload, a null owner, or the owner's edit failing), and no other status; every non-200 leaves the table unchanged |
| `Handlers.DeleteRecipeOutcome` | app.py:371-379 | 404 exactly for an absent id; 403 exactly when the recipe is not the current user's; every rejection leaves both tables unchanged; success removes the recipe and exactly its ingredients |
| `Handlers.NotFoundBeforeForbidden` | app.py:360-377 | a missing recipe is a 404 for every user on both edit and delete; a 403 reveals that the recipe exists |
| `Handlers.PutRecipeTouchesOnlyOwnRecipe` | app.py:359-367 | the table changes only when the current user owns the recipe; no other recipe changes, no key is added or removed, and no recipe changes owner |
| `Handlers.DeleteRecipeTwice` | app.py:371-379 | deleting the same recipe again answers 404 and changes nothing |
| `Handlers.RegistrationStatus` | app.py:260-266 | 422 exactly when some user's e-mail equals `data.get('email')` exactly, null when the key is absent; 200 exactly when username, e-mail and password are present and the e-mail is unused; 500 otherwise |
| `Handlers.MixedCaseRegistrationLockedOut` | app.py:104-107 | a user registered as "Ann@x.io" is never authenticated by basic auth, whatever e-mail and password are presented |
| `Handlers.Database.PostUser` | app.py:260-266 | the status is that of `RegistrationStatus`; a rejection adds no user; success appends one fresh user with the payload's fields and no token; e-mails and tokens stay unique |
| `Handlers.Database.PostUserNormalised` | app.py:260-266 | as `PostUser` on the payload with a lower-cased e-mail: on success the one new row has id `newId`, the lower-cased e-mail, the hashed password, the username, no avatar and no token; the new user then authenticates under every casing of that e-mail with the registered password |
| `Handlers.Database.Login` | app.py:235-244 | the current user is given a token with the default lifetime, and `check_token` at the same time resolves that token to this user |
| `Handlers.Database.PutRecipe` | app.py:359-367 | the status and new recipe table are those of `PutRecipeOutcome` |
| `Handlers.Database.DeleteRecipe` | app.py:371-379 | the status and new tables are those of `DeleteRecipeOutcome`; the remaining ingredient rows are the same objects as before |

## Left out

- Database sessions, `save`/`delete` commits and rollbacks: a handler either changes the tables or leaves them as they were. The cascade from a recipe to its ingredients is written out in `DeleteRecipeOutcome`.
- `secrets.token_urlsafe`, `dt.utcnow()` and werkzeug's password hashing are external calls. They are the parameters `drawn`, `now` and `hash`. Salting is not modelled, so checking a password is `hash(password) == stored`.
- `Auth.VerifyPassword`: a user whose password column is null is not authenticated; werkzeug would raise on it instead.
- `Text.Lower`: maps only the ASCII letters A-Z; Python's `str.lower` also folds other Unicode letters.
- `Recipe.from_dict` raises unless `data["ingredients"]` is present and empty (an empty list or `""`): for any ingredient it appends to the misspelt `self.ingrediens`. `Recipe.to_dict` reads the missing `self.recipes`, and `Recipe.new` writes through a possibly null `self.box`. In `put_recipe` the edit is therefore the parameter `edit`, which yields the edited recipe or fails, and is required never to change the owner, since the whitelist of `from_dict` leaves out `user_id`.
- `Handlers.Database.PutRecipe`, `Handlers.PutRecipeOutcome`: a failing edit is modelled as leaving the tables unchanged. Inside `Recipe.from_dict`, however, `Ingredient.save()` commits before the exception, which can persist a half-applied edit and an orphan ingredient.
- `to_dict` serialisation of every entity, and the JSON response bodies.
- The other handlers are not part of this model: `put_user`, `delete_user`, `get_recipes`, `get_recipe`, `post_recipe`, and the four collection handlers. They are direct ORM calls, or they fail at run time (`get_recipes` passes the builtin `id`; `delete_collection` lacks its `id` parameter).
- Flask routing, CORS and configuration.
- `filter_by` compares a column with exact string equality, the default collation of SQLite and PostgreSQL. The database is whatever `SQLALCHEMY_DATABASE_URI` names. Under a case-insensitive collation (MySQL's default), the e-mail lookup in `verify_password` and the duplicate check in `post_user` would both ignore case.
- `Tokens.RevokedNotLive`, `Auth.RevokedTokenRefused`: `revoke_token` does not commit, unlike `get_token`, which calls `save()`. The revoked expiry reaches the table only if the caller commits. No handler calls `revoke_token`.
- Payload values are strings. Other JSON value types are not modelled.
- app/models.py and app/blueprints/auth/routes.py are not part of this model. They hold a second ORM-only schema and form-driven handlers whose one real check repeats `verify_password`.

## Findings

| source | as written | input that shows it | evidently intended | confidence | as-written member | corrected member |
|---|---|---|---|---|---|---|
| app.py:260-266 | `post_user` checks for a duplicate and stores the e-mail exactly as sent, but `verify_password` (app.py:26) looks users up by the lower-cased login | `POST /user` with `{"username": "ann", "email": "Ann@x.io", "password": "pw"}` is accepted; `GET /login` as `Ann@x.io:pw` (or any casing) then finds no user and answers 401 | lower-case the e-mail before the duplicate check and before storing it | high under a case-sensitive collation (SQLite and PostgreSQL defaults); does not arise under a case-insensitive one; not executed | `Handlers.Database.PostUser`, `Handlers.MixedCaseRegistrationLockedOut` | `Handlers.Database.PostUserNormalised` |
