/**
 * The password-reset token table: a token per email, a 60-minute lifetime and
 * single use. Token generation, hashing and mail are inputs.
 */
module PasswordReset {

  import opened Wrappers
  import BookingRequests
  import Digits

  type Input = BookingRequests.Input

  /** A row of `password_reset_tokens`; `createdAt` in seconds. */
  datatype ResetToken = ResetToken(email: string, token: string, createdAt: int)

  function Abs(x: int): nat
  {
    if x < 0 then -x else x
  }

  /** `diffInMinutes`: whole minutes between the two instants, either way round. */
  function TokenAgeMinutes(createdAt: int, now: int): (m: nat)
    ensures m * 60 <= Abs(now - createdAt) < (m + 1) * 60
  {
    Abs(now - createdAt) / 60
  }

  /** `$tokenAge > 60`. */
  predicate Expired(createdAt: int, now: int)
  {
    TokenAgeMinutes(createdAt, now) > 60
  }

  /** A token expires once 61 whole minutes have passed since it was issued. */
  lemma ExpiryWindow(createdAt: int, now: int)
    requires createdAt <= now
    ensures Expired(createdAt, now) <==> now - createdAt >= 61 * 60
  {
  }

  /** The rows a `where(...)->delete()` leaves: those `keep` holds for, in order. */
  function Keep(rows: seq<ResetToken>, keep: ResetToken -> bool): (r: seq<ResetToken>)
    ensures forall t :: t in r <==> t in rows && keep(t)
    ensures |r| <= |rows|
  {
    if rows == [] then []
    else (if keep(rows[0]) then [rows[0]] else []) + Keep(rows[1..], keep)
  }

  function WithoutEmail(rows: seq<ResetToken>, email: string): (r: seq<ResetToken>)
    ensures forall t :: t in r <==> t in rows && t.email != email
  {
    Keep(rows, (t: ResetToken) => t.email != email)
  }

  function WithoutToken(rows: seq<ResetToken>, token: string): (r: seq<ResetToken>)
    ensures forall t :: t in r <==> t in rows && t.token != token
  {
    Keep(rows, (t: ResetToken) => t.token != token)
  }

  /** `where('token', $token)->first()`. */
  function FirstWithToken(rows: seq<ResetToken>, token: string): (r: Option<ResetToken>)
    ensures r.Some? ==> r.value in rows && r.value.token == token
    ensures r.None? <==> forall t :: t in rows ==> t.token != token
  {
    if rows == [] then None
    else if rows[0].token == token then Some(rows[0])
    else FirstWithToken(rows[1..], token)
  }

  /** No two rows share an email. */
  ghost predicate OneTokenPerEmail(rows: seq<ResetToken>)
  {
    forall i, j :: 0 <= i < |rows| && 0 <= j < |rows| && rows[i].email == rows[j].email ==> i == j
  }

  /** Deleting rows keeps emails apart. */
  lemma {:induction false} KeepKeepsOneToken(rows: seq<ResetToken>, keep: ResetToken -> bool)
    requires OneTokenPerEmail(rows)
    ensures OneTokenPerEmail(Keep(rows, keep))
  {
    if rows != [] {
      assert OneTokenPerEmail(rows[1..]) by {
        forall i, j | 0 <= i < |rows| - 1 && 0 <= j < |rows| - 1 && rows[1..][i].email == rows[1..][j].email
          ensures i == j
        {
          assert rows[i + 1].email == rows[j + 1].email;
        }
      }
      KeepKeepsOneToken(rows[1..], keep);
      var rest := Keep(rows[1..], keep);
      if keep(rows[0]) {
        forall t | t in rest
          ensures t.email != rows[0].email
        {
          var k :| 1 <= k < |rows| && rows[k] == t;
        }
        var r := [rows[0]] + rest;
        forall i, j | 0 <= i < |r| && 0 <= j < |r| && r[i].email == r[j].email
          ensures i == j
        {
          if i > 0 && j > 0 {
            assert rest[i - 1].email == rest[j - 1].email;
          }
        }
      }
    }
  }

  /** Replacing every token of an email with a new one keeps one token per email. */
  lemma ReissueKeepsOneToken(rows: seq<ResetToken>, t: ResetToken)
    requires OneTokenPerEmail(rows)
    ensures OneTokenPerEmail(WithoutEmail(rows, t.email) + [t])
  {
    var kept := WithoutEmail(rows, t.email);
    KeepKeepsOneToken(rows, (u: ResetToken) => u.email != t.email);
    var r := kept + [t];
    forall i, j | 0 <= i < |r| && 0 <= j < |r| && r[i].email == r[j].email
      ensures i == j
    {
    }
  }

  /** `email => required|email|exists:users,email`. */
  predicate ForgotRequestValid(m: Input, isEmail: string -> bool, passwords: map<string, string>)
  {
    BookingRequests.RequiredString(m, "email", None) && isEmail(m["email"].s) && m["email"].s in passwords
  }

  /** `token => required`, `password => required|string|min:8|confirmed`. */
  predicate ResetRequestValid(m: Input)
  {
    && BookingRequests.Required(m, "token")
    && BookingRequests.RequiredString(m, "password", None) && |m["password"].s| >= 8
    && "password_confirmation" in m && m["password_confirmation"] == m["password"]
  }

  /**
   * The record `where('token', $request->token)->first()` finds: a stored
   * token equal to the request's text token; a token that is not text finds
   * none.
   */
  function TokenRecord(rows: seq<ResetToken>, m: Input): (r: Option<ResetToken>)
    ensures r.Some? ==> r.value in rows && "token" in m && m["token"] == BookingRequests.Str(r.value.token)
    ensures r.None? <==> !("token" in m && m["token"].Str?) || forall t :: t in rows ==> BookingRequests.Str(t.token) != m["token"]
  {
    if "token" in m && m["token"].Str? then FirstWithToken(rows, m["token"].s) else None
  }

  /**
   * MySQL's `token = ?` as the query is written: a text token compares as
   * text; a number makes MySQL read the stored varchar as a number, which
   * `(int)` models here (they agree on the letters and digits of a random
   * token), so text with no leading number reads as 0.
   */
  predicate TokenMatchesAsWritten(stored: string, v: BookingRequests.Value)
  {
    (v.Str? && v.s == stored) || (v.Int? && Digits.IntCast(stored) == v.i)
  }

  /** The first stored token the as-written comparison matches. */
  function FirstMatchingAsWritten(rows: seq<ResetToken>, v: BookingRequests.Value): (r: Option<ResetToken>)
    ensures r.Some? ==> r.value in rows && TokenMatchesAsWritten(r.value.token, v)
    ensures r.None? <==> forall t :: t in rows ==> !TokenMatchesAsWritten(t.token, v)
  {
    if rows == [] then None
    else if TokenMatchesAsWritten(rows[0].token, v) then Some(rows[0])
    else FirstMatchingAsWritten(rows[1..], v)
  }

  /** `where('token', $request->token)->first()` as written, for any request value. */
  function TokenRecordAsWritten(rows: seq<ResetToken>, m: Input): (r: Option<ResetToken>)
    ensures r.Some? ==> r.value in rows && "token" in m && TokenMatchesAsWritten(r.value.token, m["token"])
    ensures r.None? <==> "token" !in m || forall t :: t in rows ==> !TokenMatchesAsWritten(t.token, m["token"])
  {
    if "token" in m then FirstMatchingAsWritten(rows, m["token"]) else None
  }

  /** For a text token the lookup as written and the corrected one find the same record. */
  lemma {:induction false} TextTokenLookupsAgree(rows: seq<ResetToken>, m: Input)
    requires "token" in m && m["token"].Str?
    ensures TokenRecordAsWritten(rows, m) == TokenRecord(rows, m)
  {
    TextTokenMatchesAgree(rows, m["token"].s);
  }

  lemma {:induction false} TextTokenMatchesAgree(rows: seq<ResetToken>, token: string)
    ensures FirstMatchingAsWritten(rows, BookingRequests.Str(token)) == FirstWithToken(rows, token)
  {
    if rows != [] {
      TextTokenMatchesAgree(rows[1..], token);
    }
  }

  /**
   * As written, the request `{"token": 0}` finds a record whenever some
   * stored token starts with a letter, though it names no token; the
   * corrected lookup finds none.
   */
  lemma NumericTokenFindsLetterToken(rows: seq<ResetToken>, m: Input, victim: ResetToken)
    requires "token" in m && m["token"] == BookingRequests.Int(0)
    requires victim in rows && victim.token != [] && ('a' <= victim.token[0] <= 'z' || 'A' <= victim.token[0] <= 'Z')
    ensures TokenRecordAsWritten(rows, m).Some?
    ensures TokenRecord(rows, m).None?
  {
    Digits.LetterCastsToZero(victim.token);
    assert TokenMatchesAsWritten(victim.token, m["token"]);
  }

  /**
   * The token table beside the users' password hashes (users are keyed by
   * their unique email).
   */
  class ResetTokenTable {

    var tokens: seq<ResetToken>
    var passwords: map<string, string>

    ghost predicate Valid()
      reads this
    {
      OneTokenPerEmail(tokens)
    }

    constructor(passwords: map<string, string>)
      ensures Valid() && tokens == [] && this.passwords == passwords
    {
      tokens := [];
      this.passwords := passwords;
    }

    /**
     * `forgotPassword`: 422 unless the email is valid and registered;
     * otherwise every token of the email is replaced by the new one, which
     * stays even when mailing fails (500).
     */
    method ForgotPassword(m: Input, isEmail: string -> bool, token: string, now: int, mailSent: bool)
      returns (code: int)
      requires Valid()
      modifies this
      ensures Valid() && passwords == old(passwords)
      ensures !ForgotRequestValid(m, isEmail, old(passwords)) ==> code == 422 && tokens == old(tokens)
      ensures ForgotRequestValid(m, isEmail, old(passwords)) ==>
        var email := m["email"].s;
        && tokens == WithoutEmail(old(tokens), email) + [ResetToken(email, token, now)]
        && (forall t :: t in tokens && t.email == email ==> t.token == token)
        && code == (if mailSent then 200 else 500)
    {
      if !ForgotRequestValid(m, isEmail, passwords) {
        return 422;
      }
      var email := m["email"].s;
      ReissueKeepsOneToken(tokens, ResetToken(email, token, now));
      tokens := WithoutEmail(tokens, email) + [ResetToken(email, token, now)];
      code := if mailSent then 200 else 500;
    }

    /**
     * `verifyToken`: 404 for an unknown token; an expired token is deleted
     * (410); otherwise 200 with the token's email.
     */
    method VerifyToken(token: string, now: int) returns (code: int, email: Option<string>)
      requires Valid()
      modifies this
      ensures Valid() && passwords == old(passwords)
      ensures match FirstWithToken(old(tokens), token)
        case None => code == 404 && email.None? && tokens == old(tokens)
        case Some(t) =>
          if Expired(t.createdAt, now) then
            code == 410 && email.None? && tokens == WithoutToken(old(tokens), token)
          else
            code == 200 && email == Some(t.email) && tokens == old(tokens)
    {
      var found := FirstWithToken(tokens, token);
      if found.None? {
        return 404, None;
      }
      if Expired(found.value.createdAt, now) {
        KeepKeepsOneToken(tokens, (t: ResetToken) => t.token != token);
        tokens := WithoutToken(tokens, token);
        return 410, None;
      }
      return 200, Some(found.value.email);
    }

    /**
     * `resetPassword`: 422 for an invalid request, 404 for an unknown token,
     * 410 (and deletion) for an expired one, 404 with the token kept when the
     * user is gone; otherwise the hash is replaced, the token deleted and 200
     * returned.
     */
    method ResetPassword(m: Input, newHash: string, now: int) returns (code: int)
      requires Valid()
      modifies this
      ensures Valid()
      ensures !ResetRequestValid(m) ==> code == 422 && unchanged(this)
      ensures ResetRequestValid(m) ==>
        match TokenRecord(old(tokens), m)
        case None => code == 404 && unchanged(this)
        case Some(t) =>
          if Expired(t.createdAt, now) then
            code == 410 && passwords == old(passwords) && tokens == WithoutToken(old(tokens), t.token)
          else if t.email !in old(passwords) then
            code == 404 && unchanged(this)
          else
            && code == 200
            && passwords == old(passwords)[t.email := newHash]
            && tokens == WithoutToken(old(tokens), t.token)
    {
      if !ResetRequestValid(m) {
        return 422;
      }
      var found := TokenRecord(tokens, m);
      if found.None? {
        return 404;
      }
      var t := found.value;
      if Expired(t.createdAt, now) {
        KeepKeepsOneToken(tokens, (u: ResetToken) => u.token != t.token);
        tokens := WithoutToken(tokens, t.token);
        return 410;
      }
      if t.email !in passwords {
        return 404;
      }
      passwords := passwords[t.email := newHash];
      KeepKeepsOneToken(tokens, (u: ResetToken) => u.token != t.token);
      tokens := WithoutToken(tokens, t.token);
      code := 200;
    }
  }

  /** A token that has reset a password is gone: looking it up again finds nothing. */
  lemma ResetTokenSingleUse(rows: seq<ResetToken>, token: string)
    ensures FirstWithToken(WithoutToken(rows, token), token).None?
  {
  }

  /** After reissuing, the email's token is the new one. */
  lemma ReissuedTokenIsFound(rows: seq<ResetToken>, t: ResetToken)
    requires OneTokenPerEmail(rows)
    ensures forall u :: u in WithoutEmail(rows, t.email) + [t] && u.email == t.email ==> u == t
  {
  }
}
