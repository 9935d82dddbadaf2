/**
 * The access decisions of the request handlers that register users and
 * edit or delete recipes, over a store of user, recipe and ingredient
 * rows. Each handler is a method on the store, proved against a
 * function that gives the status and the new tables of a request.
 */
module Handlers {
  import opened Wrappers
  import opened Text
  import opened Tokens
  import opened Models
  import opened Auth

  /** The HTTP statuses the handlers answer with; an uncaught exception is a 500. */
  datatype Status =
    | Success        // 200
    | Forbidden      // 403
    | NotFound       // 404
    | Unprocessable  // 422
    | ServerError    // 500

  /** The status of a request and the tables it leaves behind. */
  datatype Outcome<S> = Outcome(status: Status, store: S)

  /**
   * The recipe table and, for each ingredient row, the recipe it belongs
   * to (its `recipe_id`).
   */
  datatype Tables = Tables(recipes: map<int, Recipe>, links: map<int, Option<int>>)

  /** An edit of a recipe row that never changes its `user_id`. */
  ghost predicate KeepsOwner(edit: Recipe -> Option<Recipe>) {
    forall r :: edit(r).Some? ==> edit(r).value.owner == r.owner
  }

  /**
   * `put_recipe` by user `current` with payload id `id` (None when the
   * payload has no "id"). `edit` stands for `Recipe.from_dict` on the
   * payload: it yields the edited row, or None when it raises. Its
   * whitelist of columns leaves out `user_id`, so an edit keeps the owner.
   */
  function PutRecipeOutcome(recipes: map<int, Recipe>, current: int, id: Option<int>,
                            edit: Recipe -> Option<Recipe>): (r: Outcome<map<int, Recipe>>)
    requires KeepsOwner(edit)
    ensures r.status != Success ==> r.store == recipes
    ensures r.status == NotFound <==> id.Some? && id.value !in recipes
    ensures r.status == Forbidden <==>
              id.Some? && id.value in recipes && recipes[id.value].owner.Some? && recipes[id.value].owner.value != current
    ensures r.status == Success <==>
              id.Some? && id.value in recipes && recipes[id.value].owner == Some(current) && edit(recipes[id.value]).Some?
    ensures r.status == Success ==> r.store == recipes[id.value := edit(recipes[id.value]).value]
    ensures r.status == Success ==> r.store[id.value].owner == Some(current)
    ensures r.status in {Success, Forbidden, NotFound, ServerError}
    ensures r.status == ServerError <==>
              id.None? ||
              (id.value in recipes &&
               (recipes[id.value].owner.None? ||
                (recipes[id.value].owner == Some(current) && edit(recipes[id.value]).None?)))
  {
    if id.None? then Outcome(ServerError, recipes)
    else if id.value !in recipes then Outcome(NotFound, recipes)
    else
      var recipe := recipes[id.value];
      if recipe.owner.None? then Outcome(ServerError, recipes)
      else if recipe.owner.value != current then Outcome(Forbidden, recipes)
      else match edit(recipe)
        case None => Outcome(ServerError, recipes)
        case Some(edited) => Outcome(Success, recipes[id.value := edited])
  }

  /** `delete_recipe(id)` by user `current`; the database cascades to the recipe's ingredients. */
  function DeleteRecipeOutcome(t: Tables, current: int, id: int): (r: Outcome<Tables>)
    ensures r.status != Success ==> r.store == t
    ensures r.status == NotFound <==> id !in t.recipes
    ensures r.status == Forbidden <==> id in t.recipes && t.recipes[id].owner != Some(current)
    ensures r.status in {Success, NotFound, Forbidden}
    ensures r.status == Success ==> r.store.recipes == t.recipes - {id}
    ensures r.status == Success ==> forall k :: k in r.store.links <==> k in t.links && t.links[k] != Some(id)
    ensures forall k :: k in r.store.links ==> k in t.links && r.store.links[k] == t.links[k]
  {
    if id !in t.recipes then Outcome(NotFound, t)
    else if t.recipes[id].owner != Some(current) then Outcome(Forbidden, t)
    else Outcome(Success, Tables(t.recipes - {id}, map k | k in t.links && t.links[k] != Some(id) :: t.links[k]))
  }

  /**
   * The existence check comes before the ownership check: a missing
   * recipe is a 404 whoever asks, and a 403 tells a non-owner that the
   * recipe exists.
   */
  lemma NotFoundBeforeForbidden(t: Tables, current: int, other: int, id: int, edit: Recipe -> Option<Recipe>)
    requires KeepsOwner(edit)
    ensures id !in t.recipes ==>
              DeleteRecipeOutcome(t, current, id).status == DeleteRecipeOutcome(t, other, id).status == NotFound &&
              PutRecipeOutcome(t.recipes, current, Some(id), edit).status == NotFound
    ensures DeleteRecipeOutcome(t, current, id).status == Forbidden ==> id in t.recipes
    ensures PutRecipeOutcome(t.recipes, current, Some(id), edit).status == Forbidden ==> id in t.recipes
  {
  }

  /** Only the owner changes a recipe, only that recipe changes, and no recipe changes hands. */
  lemma PutRecipeTouchesOnlyOwnRecipe(recipes: map<int, Recipe>, current: int, id: Option<int>,
                                      edit: Recipe -> Option<Recipe>)
    requires KeepsOwner(edit)
    ensures var r := PutRecipeOutcome(recipes, current, id, edit);
            r.store != recipes ==> id.Some? && id.value in recipes && recipes[id.value].owner == Some(current)
    ensures var r := PutRecipeOutcome(recipes, current, id, edit);
            r.store.Keys == recipes.Keys &&
            forall k :: k in recipes && Some(k) != id ==> r.store[k] == recipes[k]
    ensures var r := PutRecipeOutcome(recipes, current, id, edit);
            forall k :: k in recipes ==> r.store[k].owner == recipes[k].owner
  {
  }

  /** Deleting the same recipe twice: the second request is a 404 and changes nothing. */
  lemma DeleteRecipeTwice(t: Tables, current: int, other: int, id: int)
    requires DeleteRecipeOutcome(t, current, id).status == Success
    ensures var s := DeleteRecipeOutcome(t, current, id).store;
            DeleteRecipeOutcome(s, other, id) == Outcome(NotFound, s)
  {
  }

  /** `data.get(key)`: the payload's value, or null when the key is absent. */
  function Get(data: map<string, string>, key: string): Option<string> {
    if key in data then Some(data[key]) else None
  }

  /**
   * `post_user`: 422 when a row's e-mail equals `data.get('email')`
   * (compared case-sensitively, and null when the key is absent), 500
   * when a required key is missing (a `KeyError` in `register`), 200
   * otherwise.
   */
  function RegistrationStatus(users: seq<User>, data: map<string, string>): (s: Status)
    reads users
    ensures s == Unprocessable <==> exists u :: u in users && u.email == Get(data, "email")
    ensures s == Success <==>
              "username" in data && "email" in data && "password" in data &&
              forall u :: u in users ==> u.email != Some(data["email"])
    ensures s in {Success, Unprocessable, ServerError}
  {
    if First(EmailColumn(users), Get(data, "email")).Some? then Unprocessable
    else if !("username" in data && "email" in data && "password" in data) then ServerError
    else Success
  }

  /**
   * As written, `post_user` stores the e-mail exactly as sent, so a user
   * registered as "Ann@x.io" is never the one basic auth looks up.
   */
  lemma MixedCaseRegistrationLockedOut(users: seq<User>, u: User, email: string, password: string,
                                       hash: string -> string)
    requires u in users && u.email == Some("Ann@x.io")
    ensures VerifyPassword(users, email, password, hash) != Verdict(Some(u), true)
  {
    assert IsUpper("Ann@x.io"[0]);
    MixedCaseEmailNeverLooked(users, u, email, password, hash);
  }

  /** The payload with its e-mail, if any, lower-cased. */
  function Normalised(data: map<string, string>): (d: map<string, string>)
    ensures d.Keys == data.Keys
    ensures forall k :: k in data && k != "email" ==> d[k] == data[k]
    ensures "email" in data ==> d["email"] == Lower(data["email"])
  {
    if "email" in data then data["email" := Lower(data["email"])] else data
  }

  class Database {
    var users: seq<User>
    var recipes: map<int, Recipe>
    var ingredients: map<int, Ingredient>

    /** The recipe table and each ingredient's recipe. */
    function Snapshot(): Tables
      reads this, ingredients.Values
    {
      Tables(recipes, map k | k in ingredients :: ingredients[k].recipeId)
    }

    ghost predicate Valid()
      reads this, users`email, users`token, users`tokenExp
    {
      TableValid(users)
    }

    /** `User()` followed by `register(data)`: a fresh row with the payload's fields and no token. */
    static method NewUser(data: map<string, string>, hash: string -> string, newId: int) returns (u: User)
      requires "username" in data && "email" in data && "password" in data
      ensures fresh(u) && u.id == newId && u.Valid()
      ensures u.Fields() == Profile(Some(data["email"]), Some(hash(data["password"])), Some(data["username"]), None)
      ensures u.Session() == Tokens.Session(None, None)
    {
      u := new User(newId);
      u.Register(data, hash);
    }

    /** `post_user`, the new row taking primary key `newId`. */
    method PostUser(data: map<string, string>, hash: string -> string, newId: int) returns (status: Status)
      requires Valid()
      modifies this`users
      ensures Valid()
      ensures status == RegistrationStatus(old(users), data)
      ensures status != Success ==> users == old(users)
      ensures status == Success ==>
                |users| == |old(users)| + 1 && users[..|old(users)|] == old(users) &&
                fresh(users[|old(users)|]) && users[|old(users)|].id == newId &&
                users[|old(users)|].Fields() ==
                  Profile(Some(data["email"]), Some(hash(data["password"])), Some(data["username"]), None) &&
                users[|old(users)|].Session() == Tokens.Session(None, None)
    {
      status := RegistrationStatus(users, data);
      if status != Success {
        return;
      }
      var u := NewUser(data, hash, newId);
      TableValidAppend(users, u);
      users := users + [u];
    }

    /**
     * `post_user` as its login path evidently expects: the e-mail is
     * lower-cased before the duplicate check and before it is stored, so
     * the new user can log in under any casing of that address.
     */
    method PostUserNormalised(data: map<string, string>, hash: string -> string, newId: int) returns (status: Status)
      requires Valid()
      modifies this`users
      ensures Valid()
      ensures status == RegistrationStatus(old(users), Normalised(data))
      ensures status != Success ==> users == old(users)
      ensures status == Success ==>
                |users| == |old(users)| + 1 && users[..|old(users)|] == old(users) &&
                fresh(users[|old(users)|]) && users[|old(users)|].id == newId &&
                users[|old(users)|].Fields() ==
                  Profile(Some(Lower(data["email"])), Some(hash(data["password"])), Some(data["username"]), None) &&
                users[|old(users)|].Session() == Tokens.Session(None, None)
      ensures status == Success ==>
                forall email :: Lower(email) == Lower(data["email"]) ==>
                  VerifyPassword(users, email, data["password"], hash) == Verdict(Some(users[|old(users)|]), true)
    {
      var normalised := Normalised(data);
      status := PostUser(normalised, hash, newId);
      if status == Success {
        var u := users[|old(users)|];
        assert u in users;
        assert u.email == Some(Lower(data["email"])) && u.password == Some(hash(data["password"])) by {
          assert u.Fields() == Profile(Some(normalised["email"]), Some(hash(normalised["password"])),
                                       Some(normalised["username"]), None);
        }
        OwnerAuthenticatesUnderEveryCasing(users, u, data["email"], data["password"], hash);
      }
    }

    /** `login`: basic auth has resolved the current user `u`, who is handed a token with the default lifetime. */
    method Login(u: User, now: int, drawn: string) returns (token: string)
      requires Valid() && u in users
      requires drawn != "" && forall v :: v in users ==> v.token != Some(drawn)
      modifies u`token, u`tokenExp
      ensures Valid()
      ensures (token, u.Session()) == Issue(old(u.Session()), now, DefaultLifetime, drawn)
      ensures CheckToken(users, token, now) == Some(u)
    {
      ghost var k := First(users, u).value;
      ghost var tokens := TokenColumn(users);
      token := u.GetToken(now, drawn);
      forall i | 0 <= i < |users| && i != k
        ensures users[i].token == tokens[i] && users[i].Valid()
      {
        assert users[i] != users[k] && old(users[i].Valid());
      }
      assert UniqueEmails(users) by {
        assert EmailColumn(users) == old(EmailColumn(users));
      }
      RetokenKeepsTableValid(users, k, tokens, drawn);
      IssuedTokenLive(old(u.Session()), now, DefaultLifetime, drawn, now);
      CheckTokenFindsHolder(users, u, token, now);
    }

    /** `put_recipe` by user `current`. */
    method PutRecipe(current: int, id: Option<int>, edit: Recipe -> Option<Recipe>) returns (status: Status)
      requires KeepsOwner(edit)
      modifies this`recipes
      ensures Outcome(status, recipes) == PutRecipeOutcome(old(recipes), current, id, edit)
    {
      if id.None? {
        return ServerError;
      }
      var key := id.value;
      if key !in recipes {
        return NotFound;
      }
      var recipe := recipes[key];
      if recipe.owner.None? {
        return ServerError;
      }
      if recipe.owner.value != current {
        return Forbidden;
      }
      match edit(recipe)
      case None =>
        status := ServerError;
      case Some(edited) =>
        recipes := recipes[key := edited];
        status := Success;
    }

    /** `delete_recipe(id)` by user `current`. */
    method DeleteRecipe(current: int, id: int) returns (status: Status)
      modifies this`recipes, this`ingredients
      ensures Outcome(status, Snapshot()) == DeleteRecipeOutcome(old(Snapshot()), current, id)
      ensures forall k :: k in ingredients ==> k in old(ingredients) && ingredients[k] == old(ingredients)[k]
    {
      if id !in recipes {
        return NotFound;
      }
      if recipes[id].owner != Some(current) {
        return Forbidden;
      }
      ghost var before := Snapshot();
      ingredients := map k | k in ingredients && ingredients[k].recipeId != Some(id) :: ingredients[k];
      recipes := recipes - {id};
      status := Success;
      assert Snapshot().links == map k | k in before.links && before.links[k] != Some(id) :: before.links[k];
    }
  }
}
