/**
 * The two ways a request is resolved to a current user: e-mail and
 * password (basic auth), or a bearer token. The user table is the
 * sequence of user rows in query order, so `.first()` is the earliest
 * matching row.
 */
module Auth {
  import opened Wrappers
  import opened Text
  import opened Tokens
  import opened Models

  /**
   * `filter_by(column=key).first()`: the position of the first row whose
   * column equals `key` (a null key matches the rows where the column is null).
   */
  function First<K(==)>(column: seq<K>, key: K): (r: Option<nat>)
    ensures r.Some? ==> r.value < |column| && column[r.value] == key
    ensures r.Some? ==> forall j :: 0 <= j < r.value ==> column[j] != key
    ensures r.None? <==> forall j :: 0 <= j < |column| ==> column[j] != key
  {
    if column == [] then None
    else if column[0] == key then Some(0)
    else match First(column[1..], key)
      case None => None
      case Some(k) => Some(k + 1)
  }

  /** The `email` column of the user table. */
  function EmailColumn(users: seq<User>): (c: seq<Option<string>>)
    reads users`email
    ensures |c| == |users|
    ensures forall i :: 0 <= i < |users| ==> c[i] == users[i].email
  {
    if users == [] then [] else [users[0].email] + EmailColumn(users[1..])
  }

  /** The `token` column of the user table. */
  function TokenColumn(users: seq<User>): (c: seq<Option<string>>)
    reads users`token
    ensures |c| == |users|
    ensures forall i :: 0 <= i < |users| ==> c[i] == users[i].token
  {
    if users == [] then [] else [users[0].token] + TokenColumn(users[1..])
  }

  ghost predicate AllValid(users: seq<User>)
    reads users`token, users`tokenExp
  {
    forall i :: 0 <= i < |users| ==> users[i].Valid()
  }

  /** No two rows hold the same non-null value. */
  ghost predicate Unique<T>(column: seq<Option<T>>) {
    forall i, j :: 0 <= i < j < |column| && column[i].Some? ==> column[i] != column[j]
  }

  /** A value no row holds may be written into any one row. */
  lemma {:induction false} UniqueUpdate<T>(column: seq<Option<T>>, k: nat, x: T)
    requires Unique(column) && k < |column|
    requires forall j :: 0 <= j < |column| ==> column[j] != Some(x)
    ensures Unique(column[k := Some(x)])
  {
    var c := column[k := Some(x)];
    forall i, j | 0 <= i < j < |c| && c[i].Some?
      ensures c[i] != c[j]
    {
      if i != k && j != k {
        assert c[i] == column[i] && c[j] == column[j];
      }
    }
  }

  /** A value no row holds may be appended as a new row, and so may a null. */
  lemma {:induction false} UniqueAppend<T>(column: seq<Option<T>>, x: Option<T>)
    requires Unique(column)
    requires x.Some? ==> forall j :: 0 <= j < |column| ==> column[j] != x
    ensures Unique(column + [x])
  {
    var c := column + [x];
    forall i, j | 0 <= i < j < |c| && c[i].Some?
      ensures c[i] != c[j]
    {
      if j < |column| {
        assert c[i] == column[i] && c[j] == column[j];
      } else {
        assert c[i] == column[i];
      }
    }
  }

  /** The `email` column is declared unique. */
  ghost predicate UniqueEmails(users: seq<User>)
    reads users`email
  {
    Unique(EmailColumn(users))
  }

  /** The `token` column is declared unique. */
  ghost predicate UniqueTokens(users: seq<User>)
    reads users`token
  {
    Unique(TokenColumn(users))
  }

  /**
   * The constraints of the user table: one object per row, token
   * columns set together, unique e-mails and unique tokens.
   */
  ghost predicate TableValid(users: seq<User>)
    reads users`email, users`token, users`tokenExp
  {
    (forall i, j :: 0 <= i < j < |users| ==> users[i] != users[j]) &&
    AllValid(users) && UniqueEmails(users) && UniqueTokens(users)
  }

  /** Appending a new tokenless row with an unused e-mail keeps the table's constraints. */
  lemma TableValidAppend(users: seq<User>, u: User)
    requires TableValid(users)
    requires u !in users && u.Valid() && u.token.None?
    requires forall v :: v in users ==> v.email != u.email
    ensures TableValid(users + [u])
  {
    UniqueAppend(EmailColumn(users), u.email);
    UniqueAppend(TokenColumn(users), u.token);
    assert EmailColumn(users + [u]) == EmailColumn(users) + [u.email];
    assert TokenColumn(users + [u]) == TokenColumn(users) + [u.token];
  }

  /**
   * Giving row `k` a token keeps the table's constraints when the other
   * rows keep their tokens (`tokens` is the column before) and the token
   * is either the one row `k` had or a value no row held.
   */
  lemma RetokenKeepsTableValid(users: seq<User>, k: nat, tokens: seq<Option<string>>, drawn: string)
    requires k < |users| == |tokens|
    requires forall i, j :: 0 <= i < j < |users| ==> users[i] != users[j]
    requires UniqueEmails(users) && Unique(tokens)
    requires forall i :: 0 <= i < |users| ==> users[i].Valid()
    requires forall i :: 0 <= i < |users| && i != k ==> users[i].token == tokens[i]
    requires users[k].token == tokens[k] ||
             (users[k].token == Some(drawn) && forall j :: 0 <= j < |tokens| ==> tokens[j] != Some(drawn))
    ensures TableValid(users)
  {
    assert TokenColumn(users) == tokens[k := users[k].token];
    if users[k].token != tokens[k] {
      UniqueUpdate(tokens, k, drawn);
    } else {
      assert tokens[k := users[k].token] == tokens;
    }
  }

  /**
   * `User.check_token(token)` at time `now`: the first user holding the
   * token, unless that user's expiry is already in the past.
   */
  function CheckToken(users: seq<User>, token: string, now: int): (r: Option<User>)
    reads users
    requires AllValid(users)
    ensures r.Some? ==> r.value in users && r.value.token == Some(token) && Live(r.value.Session(), now)
    ensures (forall u :: u in users ==> u.token != Some(token)) ==> r.None?
  {
    match First(TokenColumn(users), Some(token))
    case None => None
    case Some(i) => if users[i].tokenExp.value < now then None else Some(users[i])
  }

  /** `verify_token(token)`: an empty or missing bearer token resolves to no one. */
  function VerifyToken(users: seq<User>, token: string, now: int): (r: Option<User>)
    reads users
    requires AllValid(users)
    ensures token == "" ==> r.None?
    ensures token != "" ==> r == CheckToken(users, token, now)
    ensures r.Some? ==> r.value in users && r.value.token == Some(token) && Live(r.value.Session(), now)
  {
    if token == "" then None else CheckToken(users, token, now)
  }

  /**
   * With unique tokens, the holder of a token is found exactly while
   * the token is live.
   */
  lemma CheckTokenFindsHolder(users: seq<User>, u: User, token: string, now: int)
    requires AllValid(users) && UniqueTokens(users)
    requires u in users && u.token == Some(token)
    ensures CheckToken(users, token, now) == if Live(u.Session(), now) then Some(u) else None
  {
    var k :| 0 <= k < |users| && users[k] == u;
    var i := First(TokenColumn(users), Some(token)).value;
    assert i == k;
  }

  /** A revoked token is refused from the moment of revocation on. */
  lemma RevokedTokenRefused(users: seq<User>, u: User, token: string, now: int, later: int)
    requires AllValid(users) && UniqueTokens(users)
    requires u in users && u.token == Some(token) && u.tokenExp == Some(now - RevokeBackdate)
    requires now <= later
    ensures CheckToken(users, token, later).None?
  {
    CheckTokenFindsHolder(users, u, token, later);
  }

  /** The outcome of basic auth: the user looked up (kept even on a wrong password) and the verdict. */
  datatype Verdict = Verdict(current: Option<User>, authenticated: bool)

  /**
   * `verify_password(email, password)`: look the user up by the
   * lower-cased e-mail and compare the password against the stored hash.
   */
  function VerifyPassword(users: seq<User>, email: string, password: string, hash: string -> string): (v: Verdict)
    reads users
    ensures v.authenticated ==> v.current.Some?
    ensures v.current.Some? ==> v.current.value in users && v.current.value.email == Some(Lower(email))
    ensures v.current.None? <==> forall u :: u in users ==> u.email != Some(Lower(email))
    ensures v.current.Some? ==> (v.authenticated <==> v.current.value.password == Some(hash(password)))
  {
    match First(EmailColumn(users), Some(Lower(email)))
    case None => Verdict(None, false)
    case Some(i) => Verdict(Some(users[i]), users[i].password == Some(hash(password)))
  }

  /**
   * With unique e-mails, the user whose stored e-mail is the lower-cased
   * login is the one looked up, and is authenticated exactly when the
   * password hashes to the stored hash.
   */
  lemma VerifyPasswordFindsOwner(users: seq<User>, u: User, email: string, password: string, hash: string -> string)
    requires UniqueEmails(users)
    requires u in users && u.email == Some(Lower(email))
    ensures VerifyPassword(users, email, password, hash) == Verdict(Some(u), u.password == Some(hash(password)))
  {
    var k :| 0 <= k < |users| && users[k] == u;
    var i := First(EmailColumn(users), Some(Lower(email))).value;
    assert i == k;
  }

  /**
   * With unique e-mails, a user whose stored e-mail is lower-cased and whose
   * stored hash matches `password` is authenticated under every casing of
   * that e-mail.
   */
  lemma OwnerAuthenticatesUnderEveryCasing(users: seq<User>, u: User, login: string, password: string,
                                           hash: string -> string)
    requires UniqueEmails(users)
    requires u in users && u.email == Some(Lower(login)) && u.password == Some(hash(password))
    ensures forall email :: Lower(email) == Lower(login) ==>
              VerifyPassword(users, email, password, hash) == Verdict(Some(u), true)
  {
    forall email | Lower(email) == Lower(login)
      ensures VerifyPassword(users, email, password, hash) == Verdict(Some(u), true)
    {
      VerifyPasswordFindsOwner(users, u, email, password, hash);
    }
  }

  /**
   * A user whose stored e-mail holds an upper-case letter is never the
   * one looked up, whatever e-mail and password are presented.
   */
  lemma MixedCaseEmailNeverLooked(users: seq<User>, u: User, email: string, password: string, hash: string -> string)
    requires u in users && u.email.Some? && !IsLowerCase(u.email.value)
    ensures VerifyPassword(users, email, password, hash).current != Some(u)
  {
  }
}
