/**
 * The rows of the store. `User` and `Ingredient` are objects whose
 * fields the source updates in place (token issue and revocation,
 * partial updates from a JSON payload); a `Recipe` is a value, since
 * nothing in this model edits one in place.
 */
module Models {
  import opened Wrappers
  import opened Tokens

  /** The whitelisted keys of a user payload, in the order they are copied. */
  const UserFields: seq<string> := ["email", "password", "username", "avatar"]
  /** The whitelisted keys of an ingredient payload, in the order they are copied. */
  const IngredientFields: seq<string> := ["qty", "unit", "item"]

  /** The user columns a payload may set; every column is nullable. */
  datatype Profile = Profile(email: Option<string>, password: Option<string>,
                             username: Option<string>, avatar: Option<string>)

  /**
   * The profile after a partial update from `data`: each whitelisted key
   * that is present overwrites its column, the password through `hash`.
   */
  function Patched(p: Profile, data: map<string, string>, hash: string -> string): Profile {
    Profile(
      if "email" in data then Some(data["email"]) else p.email,
      if "password" in data then Some(hash(data["password"])) else p.password,
      if "username" in data then Some(data["username"]) else p.username,
      if "avatar" in data then Some(data["avatar"]) else p.avatar)
  }

  /** A payload without any whitelisted key changes nothing. */
  lemma PatchedIgnoresOtherKeys(p: Profile, data: map<string, string>, hash: string -> string)
    requires forall k :: k in data ==> k !in UserFields
    ensures Patched(p, data, hash) == p
  {
    assert "email" !in data && "password" !in data && "username" !in data && "avatar" !in data by {
      assert UserFields[0] == "email" && UserFields[1] == "password";
      assert UserFields[2] == "username" && UserFields[3] == "avatar";
    }
  }

  /** Two successive partial updates are one update with the merged payload (later keys win). */
  lemma PatchedComposes(p: Profile, d1: map<string, string>, d2: map<string, string>, hash: string -> string)
    ensures Patched(Patched(p, d1, hash), d2, hash) == Patched(p, d1 + d2, hash)
  {
  }

  /**
   * A present password is stored as its hash: the stored column equals the
   * plaintext only if the hash maps that plaintext to itself.
   */
  lemma PatchedStoresHash(p: Profile, data: map<string, string>, hash: string -> string)
    requires "password" in data
    ensures Patched(p, data, hash).password == Some(hash(data["password"]))
    ensures Patched(p, data, hash).password == Some(data["password"]) <==> hash(data["password"]) == data["password"]
  {
  }

  class User {
    const id: int
    var username: Option<string>
    var email: Option<string>
    var password: Option<string>
    var avatar: Option<string>
    var token: Option<string>
    var tokenExp: Option<int>

    /** `User()`: a row whose columns are all null until registration. */
    constructor (id: int)
      ensures this.id == id && Valid()
      ensures Fields() == Profile(None, None, None, None)
      ensures Session() == Tokens.Session(None, None)
    {
      this.id := id;
      username, email, password, avatar := None, None, None, None;
      token, tokenExp := None, None;
    }

    function Fields(): Profile
      reads this`email, this`password, this`username, this`avatar
    {
      Profile(email, password, username, avatar)
    }

    function Session(): Tokens.Session
      reads this`token, this`tokenExp
    {
      Tokens.Session(token, tokenExp)
    }

    ghost predicate Valid()
      reads this`token, this`tokenExp
    {
      WellFormed(Session())
    }

    /** `register(data)`: username, email and the hashed password, all required. */
    method Register(data: map<string, string>, hash: string -> string)
      requires "username" in data && "email" in data && "password" in data
      modifies this`username, this`email, this`password
      ensures Fields() == Profile(Some(data["email"]), Some(hash(data["password"])),
                                  Some(data["username"]), old(avatar))
    {
      username := Some(data["username"]);
      email := Some(data["email"]);
      password := Some(hash(data["password"]));
    }

    /**
     * `get_token(exp)` at time `now`; `drawn` is the random value that a
     * new token would take.
     */
    method GetToken(now: int, drawn: string, lifetime: int := DefaultLifetime) returns (t: string)
      requires Valid()
      modifies this`token, this`tokenExp
      ensures Valid()
      ensures (t, Session()) == Issue(old(Session()), now, lifetime, drawn)
    {
      if token.Some? && token.value != "" && tokenExp.value > now + ReuseMargin {
        return token.value;
      }
      token := Some(drawn);
      tokenExp := Some(now + lifetime);
      t := drawn;
    }

    /** `revoke_token()` at time `now`. */
    method RevokeToken(now: int)
      requires Valid()
      modifies this`tokenExp
      ensures Valid()
      ensures Session() == Revoke(old(Session()), now)
    {
      tokenExp := Some(now - RevokeBackdate);
    }

    /** `setattr(self, field, value)` for the whitelisted profile columns. */
    method SetField(field: string, value: Option<string>)
      requires field in UserFields
      modifies this`email, this`password, this`username, this`avatar
      ensures field == "email" ==> Fields() == old(Fields()).(email := value)
      ensures field == "password" ==> Fields() == old(Fields()).(password := value)
      ensures field == "username" ==> Fields() == old(Fields()).(username := value)
      ensures field == "avatar" ==> Fields() == old(Fields()).(avatar := value)
    {
      if field == "email" {
        email := value;
      } else if field == "password" {
        password := value;
      } else if field == "username" {
        username := value;
      } else {
        avatar := value;
      }
    }

    /** `from_dict(data)`: copy the whitelisted keys present in `data`, hashing the password. */
    method FromDict(data: map<string, string>, hash: string -> string)
      modifies this`email, this`password, this`username, this`avatar
      ensures Fields() == Patched(old(Fields()), data, hash)
    {
      for i := 0 to |UserFields|
        invariant email == if i > 0 && "email" in data then Some(data["email"]) else old(email)
        invariant password == if i > 1 && "password" in data then Some(hash(data["password"])) else old(password)
        invariant username == if i > 2 && "username" in data then Some(data["username"]) else old(username)
        invariant avatar == if i > 3 && "avatar" in data then Some(data["avatar"]) else old(avatar)
      {
        var field := UserFields[i];
        if field in data {
          if field == "password" {
            SetField(field, Some(hash(data[field])));
          } else {
            SetField(field, Some(data[field]));
          }
        }
      }
    }
  }

  /** The ingredient columns a payload may set. */
  datatype Portion = Portion(qty: Option<string>, unit: Option<string>, item: Option<string>)

  /** The portion after a partial update from `data`. */
  function PatchedPortion(p: Portion, data: map<string, string>): Portion {
    Portion(
      if "qty" in data then Some(data["qty"]) else p.qty,
      if "unit" in data then Some(data["unit"]) else p.unit,
      if "item" in data then Some(data["item"]) else p.item)
  }

  /** Applying the same ingredient payload twice is applying it once. */
  lemma PatchedPortionIdempotent(p: Portion, data: map<string, string>)
    ensures PatchedPortion(PatchedPortion(p, data), data) == PatchedPortion(p, data)
  {
  }

  class Ingredient {
    const id: int
    var qty: Option<string>
    var unit: Option<string>
    var item: Option<string>
    var recipeId: Option<int>

    constructor (id: int, recipeId: Option<int>)
      ensures this.id == id && this.recipeId == recipeId
      ensures Fields() == Portion(None, None, None)
    {
      this.id := id;
      this.recipeId := recipeId;
      qty, unit, item := None, None, None;
    }

    function Fields(): Portion
      reads this
    {
      Portion(qty, unit, item)
    }

    /** `setattr(self, field, value)` for the whitelisted ingredient columns. */
    method SetField(field: string, value: Option<string>)
      requires field in IngredientFields
      modifies this`qty, this`unit, this`item
      ensures field == "qty" ==> Fields() == old(Fields()).(qty := value)
      ensures field == "unit" ==> Fields() == old(Fields()).(unit := value)
      ensures field == "item" ==> Fields() == old(Fields()).(item := value)
    {
      if field == "qty" {
        qty := value;
      } else if field == "unit" {
        unit := value;
      } else {
        item := value;
      }
    }

    /** `from_dict(data)`: copy the whitelisted keys present in `data`. */
    method FromDict(data: map<string, string>)
      modifies this`qty, this`unit, this`item
      ensures Fields() == PatchedPortion(old(Fields()), data)
    {
      for i := 0 to |IngredientFields|
        invariant qty == if i > 0 && "qty" in data then Some(data["qty"]) else old(qty)
        invariant unit == if i > 1 && "unit" in data then Some(data["unit"]) else old(unit)
        invariant item == if i > 2 && "item" in data then Some(data["item"]) else old(item)
      {
        var field := IngredientFields[i];
        if field in data {
          SetField(field, Some(data[field]));
        }
      }
    }
  }

  /** A recipe row; `owner` is the `user_id` foreign key, null when unset. */
  datatype Recipe = Recipe(title: Option<string>, instructions: Option<string>, rating: Option<string>,
                           img: Option<string>, owner: Option<int>, collection: Option<int>)
}
