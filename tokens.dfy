/**
 * The bearer-token lifecycle of a user, on values: the pair
 * (token, token_exp) and a clock in whole seconds. The `User` class
 * (module Models) keeps this pair in two fields and its methods are
 * proved against the functions below.
 */
module Tokens {
  import opened Wrappers

  /** A token is reused only while more than this many seconds remain. */
  const ReuseMargin: int := 60
  /** Revocation moves the expiry this many seconds into the past. */
  const RevokeBackdate: int := 61
  /** Lifetime of a freshly issued token when the caller gives none. */
  const DefaultLifetime: int := 86400

  /** The token columns of a user row; both are nullable. */
  datatype Session = Session(token: Option<string>, expiry: Option<int>)

  /** Issuing sets both columns together, so a token never lacks an expiry. */
  ghost predicate WellFormed(s: Session) {
    s.token.Some? ==> s.expiry.Some?
  }

  /** A Python string is truthy when it is not empty. */
  predicate HasToken(s: Session) {
    s.token.Some? && s.token.value != ""
  }

  /** The current token is handed out again instead of a new one. */
  predicate Reusable(s: Session, now: int)
    requires WellFormed(s)
  {
    HasToken(s) && s.expiry.value > now + ReuseMargin
  }

  /** `check_token` accepts a token until its expiry is strictly in the past. */
  predicate Live(s: Session, now: int) {
    s.expiry.Some? && !(s.expiry.value < now)
  }

  /** `get_token(exp)` at time `now`, with `drawn` the random value it would draw. */
  function Issue(s: Session, now: int, lifetime: int, drawn: string): (r: (string, Session))
    requires WellFormed(s)
    ensures WellFormed(r.1)
    ensures r.1.token == Some(r.0)
  {
    if Reusable(s, now) then (s.token.value, s)
    else (drawn, Session(Some(drawn), Some(now + lifetime)))
  }

  /** `revoke_token()` at time `now`. */
  function Revoke(s: Session, now: int): (r: Session) {
    Session(s.token, Some(now - RevokeBackdate))
  }

  /** While more than a minute of validity remains, the token and its expiry are kept. */
  lemma IssueReuses(s: Session, now: int, lifetime: int, drawn: string)
    requires WellFormed(s)
    requires HasToken(s) && s.expiry.value > now + ReuseMargin
    ensures Issue(s, now, lifetime, drawn) == (s.token.value, s)
  {
  }

  /** Otherwise the drawn value is installed with expiry `now + lifetime`. */
  lemma IssueReissues(s: Session, now: int, lifetime: int, drawn: string)
    requires WellFormed(s)
    requires !HasToken(s) || s.expiry.value <= now + ReuseMargin
    ensures Issue(s, now, lifetime, drawn) == (drawn, Session(Some(drawn), Some(now + lifetime)))
  {
  }

  /**
   * The token handed out is accepted from `now` on for at least
   * `lifetime` seconds or one minute, whichever is shorter; in particular
   * at the moment it is handed out.
   */
  lemma IssuedTokenLive(s: Session, now: int, lifetime: int, drawn: string, t: int)
    requires WellFormed(s)
    requires now <= t <= now + lifetime && t <= now + ReuseMargin
    ensures Live(Issue(s, now, lifetime, drawn).1, t)
  {
  }

  /**
   * Repeated calls collapse: asking again before the issued token comes
   * within a minute of its expiry returns the same token and state.
   */
  lemma {:induction false} IssueAgainReuses(s: Session, now: int, lifetime: int, f1: string, f2: string, later: int)
    requires WellFormed(s) && f1 != ""
    requires now <= later
    requires !Reusable(s, now) ==> later + ReuseMargin < now + lifetime
    requires Reusable(s, now) ==> later + ReuseMargin < s.expiry.value
    ensures var (t, s1) := Issue(s, now, lifetime, f1);
            Issue(s1, later, lifetime, f2) == (t, s1)
  {
    var (t, s1) := Issue(s, now, lifetime, f1);
    assert Reusable(s1, later);
  }

  /** A revoked token is refused from the moment of revocation on. */
  lemma RevokedNotLive(s: Session, now: int, t: int)
    requires now <= t
    ensures !Live(Revoke(s, now), t)
  {
  }

  /** After a revocation the next issue draws a new token: the old one is never reused. */
  lemma RevokedThenReissued(s: Session, now: int, t: int, lifetime: int, drawn: string)
    requires WellFormed(s) && now <= t
    ensures !Reusable(Revoke(s, now), t)
    ensures Issue(Revoke(s, now), t, lifetime, drawn) == (drawn, Session(Some(drawn), Some(t + lifetime)))
  {
  }
}
