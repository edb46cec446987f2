/**
 * The user table and everything that is decided by looking at it: the rows,
 * each SQL statement of the account code as a function from table to table,
 * the `login` check, the classification done by `check_hash_type`, and the
 * facts about tokens and activation that the statements keep or break.
 */
module UserTable {
  import opened Text

  /** One row: password hash, emailed token ('' when none) and the activated flag. */
  datatype Account = Account(passwordHash: string, token: string, activated: bool)

  /** The user table, keyed by email (one row per registered email). */
  type Table = map<string, Account>

  /** The password hasher, whose internals are not modelled: a hash and its check. */
  datatype Hasher = Hasher(hash: string -> string, verify: (string, string) -> bool)

  /** A hasher whose check accepts every password against its own hash. */
  ghost predicate Sound(h: Hasher) {
    forall p :: h.verify(p, h.hash(p))
  }

  /** PHP truthiness of a string argument: both "" and "0" count as missing. */
  predicate Falsy(s: string) {
    s == "" || s == "0"
  }

  /** Every token value stored in some row, the blank one included. */
  function Tokens(t: Table): (r: set<string>)
    ensures forall e :: e in t ==> t[e].token in r
    ensures forall x :: x in r ==> exists e :: e in t && t[e].token == x
  {
    set e | e in t :: t[e].token
  }

  /** Two different rows never hold the same non-blank token. */
  ghost predicate UniqueTokens(t: Table) {
    forall e1, e2 :: e1 in t && e2 in t && e1 != e2 && t[e1].token == t[e2].token ==> t[e1].token == ""
  }

  /** Every row that was activated before is still activated after. */
  ghost predicate NoneDeactivated(before: Table, after: Table) {
    forall e :: e in before && e in after && before[e].activated ==> after[e].activated
  }

  /** A sequence of md5 outputs: each is 32 lower-case hex digits. */
  predicate Md5Draws(draws: seq<string>) {
    forall i :: 0 <= i < |draws| ==> IsHex32(draws[i])
  }

  /** `x` is the first of the draws that is not in `taken`: every earlier draw is. */
  ghost predicate FirstFreeDraw(draws: seq<string>, taken: set<string>, x: string) {
    exists i :: 0 <= i < |draws| && x == draws[i] && x !in taken
                && forall j :: 0 <= j < i ==> draws[j] in taken
  }

  // ---------------------------------------------------------------------
  // The SQL statements, one function each.
  // ---------------------------------------------------------------------

  /** INSERT of a new row; the email is not yet present. */
  function InsertAccount(t: Table, email: string, a: Account): (r: Table)
    requires email !in t
    ensures r.Keys == t.Keys + {email} && r[email] == a
    ensures forall e :: e in t ==> r[e] == t[e]
  {
    t[email := a]
  }

  /** UPDATE token WHERE email: changes the token of that row only, if there is one. */
  function SetTokenWhereEmail(t: Table, email: string, token: string): (r: Table)
    ensures r.Keys == t.Keys
    ensures email in t ==> r[email] == t[email].(token := token)
    ensures forall e :: e in t && e != email ==> r[e] == t[e]
  {
    if email in t then t[email := t[email].(token := token)] else t
  }

  /** UPDATE password, blank token WHERE email. */
  function SetPasswordWhereEmail(t: Table, email: string, hash: string): (r: Table)
    ensures r.Keys == t.Keys
    ensures email in t ==> r[email] == Account(hash, "", t[email].activated)
    ensures forall e :: e in t && e != email ==> r[e] == t[e]
  {
    if email in t then t[email := Account(hash, "", t[email].activated)] else t
  }

  /** UPDATE activated = 1, blank token WHERE token: touches every row holding it. */
  function ActivateWhereToken(t: Table, token: string): (r: Table)
    ensures r.Keys == t.Keys
    ensures forall e :: e in t && t[e].token == token ==> r[e] == Account(t[e].passwordHash, "", true)
    ensures forall e :: e in t && t[e].token != token ==> r[e] == t[e]
  {
    map e | e in t :: if t[e].token == token then Account(t[e].passwordHash, "", true) else t[e]
  }

  /** UPDATE blank token WHERE token: the compensation of a failed reset mail. */
  function BlankTokenWhereToken(t: Table, token: string): (r: Table)
    ensures r.Keys == t.Keys
    ensures forall e :: e in t && t[e].token == token ==> r[e] == t[e].(token := "")
    ensures forall e :: e in t && t[e].token != token ==> r[e] == t[e]
  {
    map e | e in t :: if t[e].token == token then t[e].(token := "") else t[e]
  }

  /** DELETE WHERE email. */
  function DeleteWhereEmail(t: Table, email: string): (r: Table)
    ensures r.Keys == t.Keys - {email}
    ensures forall e :: e in r ==> r[e] == t[e]
  {
    t - {email}
  }

  // ---------------------------------------------------------------------
  // The read-only queries.
  // ---------------------------------------------------------------------

  /**
   * `login`: both arguments present, a row for the email, the password checks
   * against its hash (a missing row has no hash to check against, which
   * fails), and the account is activated.
   */
  function Login(t: Table, h: Hasher, email: string, password: string): (ok: bool)
    ensures ok <==> !Falsy(email) && !Falsy(password) && email in t
                    && h.verify(password, t[email].passwordHash) && t[email].activated
  {
    if Falsy(email) || Falsy(password) then false
    else if email !in t then false
    else if !h.verify(password, t[email].passwordHash) then false
    else if !t[email].activated then false
    else true
  }

  /**
   * The answers of `check_hash_type`: FALSE, 'unverified', 'reset', and the
   * case where the function ends without returning a value.
   */
  datatype HashType = NoMatch | Unverified | Reset | NoValue

  /** How `check_hash_type` classifies a token once it has found the row holding it. */
  function Classify(a: Account, hash: string): (r: HashType)
    ensures r != NoMatch
    ensures r == Unverified <==> !a.activated
    ensures r == Reset <==> a.activated && Contains(hash, "reset")
  {
    if !a.activated then Unverified
    else if Contains(hash, "reset") then Reset
    else NoValue
  }

  // ---------------------------------------------------------------------
  // Facts about the statements and the queries.
  // ---------------------------------------------------------------------

  /** A token straight from the md5 generator is never taken for a reset token. */
  lemma GeneratedTokenNeverReset(a: Account, x: string)
    requires IsHex32(x)
    ensures Classify(a, x) != Reset
  {
    HexHasNoReset(x);
  }

  /** The token built by `reset_password` is taken for a reset token once the row is activated. */
  lemma ResetTokenIsReset(a: Account, x: string)
    requires a.activated
    ensures Classify(a, "reset" + x) == Reset
  {
    PrefixIsContained("reset", x);
  }

  /** A non-blank token held by a row of a table with unique tokens is held by that row only. */
  lemma UniqueHolder(t: Table, e: string, e': string)
    requires UniqueTokens(t)
    requires e in t && e' in t && t[e].token != "" && t[e'].token == t[e].token
    ensures e' == e
  {
  }

  /** Inserting a row whose token is not stored keeps tokens unique. */
  lemma InsertKeepsUnique(t: Table, email: string, a: Account)
    requires UniqueTokens(t) && email !in t && a.token !in Tokens(t)
    ensures UniqueTokens(InsertAccount(t, email, a))
  {
  }

  /** Storing a token that no row holds keeps tokens unique. */
  lemma SetFreshTokenKeepsUnique(t: Table, email: string, token: string)
    requires UniqueTokens(t) && token !in Tokens(t)
    ensures UniqueTokens(SetTokenWhereEmail(t, email, token))
  {
  }

  /** The statements that only blank tokens or remove rows keep tokens unique. */
  lemma BlankingKeepsUnique(t: Table, email: string, hash: string, token: string)
    requires UniqueTokens(t)
    ensures UniqueTokens(SetPasswordWhereEmail(t, email, hash))
    ensures UniqueTokens(ActivateWhereToken(t, token))
    ensures UniqueTokens(BlankTokenWhereToken(t, token))
    ensures UniqueTokens(DeleteWhereEmail(t, email))
  {
  }

  /** No statement turns an activated account back into an unactivated one. */
  lemma StatementsNeverDeactivate(t: Table, email: string, a: Account, hash: string, token: string)
    ensures email !in t ==> NoneDeactivated(t, InsertAccount(t, email, a))
    ensures NoneDeactivated(t, SetTokenWhereEmail(t, email, token))
    ensures NoneDeactivated(t, SetPasswordWhereEmail(t, email, hash))
    ensures NoneDeactivated(t, ActivateWhereToken(t, token))
    ensures NoneDeactivated(t, BlankTokenWhereToken(t, token))
    ensures NoneDeactivated(t, DeleteWhereEmail(t, email))
  {
  }

  /**
   * Activation consumes a non-blank token: afterwards no row holds it, so
   * `check_hash_type` finds nothing, and every row that held it is activated.
   */
  lemma ActivationConsumesToken(t: Table, token: string)
    requires token != ""
    ensures token !in Tokens(ActivateWhereToken(t, token))
    ensures forall e :: e in t && t[e].token == token ==> ActivateWhereToken(t, token)[e].activated
  {
  }

  /** A second activation with the same token changes nothing. */
  lemma ActivationIdempotent(t: Table, token: string)
    ensures ActivateWhereToken(ActivateWhereToken(t, token), token) == ActivateWhereToken(t, token)
  {
  }

  /**
   * The reset compensation: when the reset token was not stored before, the
   * update followed by the blanking leaves the table as it was except that the
   * row for the email (if any) has lost its previous token; an unknown email
   * leaves the table unchanged.
   */
  lemma ResetRollbackBlanksRow(t: Table, email: string, token: string)
    requires token !in Tokens(t)
    ensures BlankTokenWhereToken(SetTokenWhereEmail(t, email, token), token)
            == if email in t then t[email := t[email].(token := "")] else t
  {
  }

  /** The statements of a reset, its compensation included, deactivate no account. */
  lemma ResetNeverDeactivates(t: Table, email: string, token: string)
    ensures NoneDeactivated(t, SetTokenWhereEmail(t, email, token))
    ensures NoneDeactivated(t, BlankTokenWhereToken(SetTokenWhereEmail(t, email, token), token))
  {
  }

  /** A reset with a token no row holds keeps tokens unique, with or without its compensation. */
  lemma ResetKeepsUnique(t: Table, email: string, token: string)
    requires UniqueTokens(t) && token !in Tokens(t)
    ensures UniqueTokens(SetTokenWhereEmail(t, email, token))
    ensures UniqueTokens(BlankTokenWhereToken(SetTokenWhereEmail(t, email, token), token))
  {
  }

  /** An account that has not been activated cannot log in, whatever the password. */
  lemma UnactivatedCannotLogin(t: Table, h: Hasher, email: string, password: string)
    requires email in t && !t[email].activated
    ensures !Login(t, h, email, password)
  {
  }

  /**
   * The registration path: a freshly inserted account cannot log in; after its
   * token is used to activate it, the same credentials log in.
   */
  lemma RegistrationThenActivation(t: Table, h: Hasher, email: string, password: string, token: string)
    requires Sound(h)
    requires !Falsy(email) && !Falsy(password) && email !in t
    ensures var t1 := InsertAccount(t, email, Account(h.hash(password), token, false));
            && !Login(t1, h, email, password)
            && Login(ActivateWhereToken(t1, token), h, email, password)
  {
  }

  /** After a password change an activated account logs in with the new password. */
  lemma NewPasswordLogsIn(t: Table, h: Hasher, email: string, password: string)
    requires Sound(h)
    requires !Falsy(email) && !Falsy(password) && email in t && t[email].activated
    ensures Login(SetPasswordWhereEmail(t, email, h.hash(password)), h, email, password)
  {
  }

  /** A deleted account cannot log in, and the other accounts log in as before. */
  lemma DeletedCannotLogin(t: Table, h: Hasher, email: string, other: string, password: string)
    ensures !Login(DeleteWhereEmail(t, email), h, email, password)
    ensures other != email ==> Login(DeleteWhereEmail(t, email), h, other, password) == Login(t, h, other, password)
  {
  }

  /**
   * The uniqueness check of the token generator is made on the bare md5 value,
   * but `reset_password` stores "reset" followed by it. For any draw x: in a
   * table where one row already holds "reset" + x, no row holds x, so x passes
   * the check, and storing "reset" + x on another row gives two rows the same
   * reset token.
   */
  lemma ResetTokenCanCollide(x: string)
    requires IsHex32(x)
    ensures var t := map["a" := Account("h", "reset" + x, true), "b" := Account("h", "", true)];
            && UniqueTokens(t) && x !in Tokens(t)
            && !UniqueTokens(SetTokenWhereEmail(t, "b", "reset" + x))
  {
    var t := map["a" := Account("h", "reset" + x, true), "b" := Account("h", "", true)];
    assert t.Keys == {"a", "b"};
    assert |"reset" + x| != |x|;
    assert forall e :: e in t ==> t[e].token != x;
    var t' := SetTokenWhereEmail(t, "b", "reset" + x);
    assert t'["a"].token == t'["b"].token != "";
  }
}
