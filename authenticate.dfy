/**
 * The class `Authenticate`: the account lifecycle over the user table. The
 * table is the object's state; every public operation is a method that reads
 * it or changes it with the statements of `UserTable`. The collaborators
 * enter as parameters: `draws` is the stream of md5 values the random source
 * would produce, `mailSent` whether the mail transport accepted the message,
 * and `storeError` whether the store reported an error for the statement
 * whose error the code checks.
 */
module Auth {
  import opened Text
  import opened UserTable

  class Authenticate {
    /** The user table, keyed by email. */
    var rows: Table
    /** The password hasher (cost factor 12); its internals are not modelled. */
    const hasher: Hasher

    /** Connects to an existing user table. */
    constructor (store: Table, h: Hasher)
      ensures rows == store && hasher == h
    {
      rows := store;
      hasher := h;
    }

    /**
     * Draws md5 values until one is held by no row, and returns it. The loop
     * ends because the random source is assumed to produce, at some point, a
     * value that is not stored.
     */
    method GenerateRandomHash(draws: seq<string>) returns (token: string)
      requires Md5Draws(draws)
      requires exists i :: 0 <= i < |draws| && draws[i] !in Tokens(rows)
      ensures IsHex32(token)
      ensures FirstFreeDraw(draws, Tokens(rows), token)
    {
      ghost var k :| 0 <= k < |draws| && draws[k] !in Tokens(rows);
      var i := 0;
      token := draws[i];
      while token in Tokens(rows)
        invariant 0 <= i <= k && token == draws[i]
        invariant forall j :: 0 <= j < i ==> draws[j] in Tokens(rows)
        decreases k - i
      {
        i := i + 1;
        token := draws[i];
      }
    }

    /**
     * `create_user`: rejects a missing email or password without touching the
     * table; otherwise inserts an unactivated row with a fresh token. A store
     * error (or an email that already has a row) leaves the table as it was.
     * When the mail fails the result is FALSE, but the row stays: the rollback
     * calls `DeleteUser` with the hashed password, and its login check fails on
     * an unactivated row.
     */
    method CreateUser(email: string, password: string, draws: seq<string>, storeError: bool, mailSent: bool)
      returns (ok: bool)
      requires Md5Draws(draws)
      requires exists i :: 0 <= i < |draws| && draws[i] !in Tokens(rows)
      modifies this
      ensures ok ==> !Falsy(email) && !Falsy(password) && email !in old(rows) && !storeError && mailSent
      ensures Falsy(email) || Falsy(password) || email in old(rows) || storeError ==> rows == old(rows)
      ensures !Falsy(email) && !Falsy(password) && email !in old(rows) && !storeError ==>
                && ok == mailSent
                && email in rows
                && rows == InsertAccount(old(rows), email, Account(hasher.hash(password), rows[email].token, false))
                && IsHex32(rows[email].token) && FirstFreeDraw(draws, Tokens(old(rows)), rows[email].token)
      ensures UniqueTokens(old(rows)) ==> UniqueTokens(rows)
      ensures NoneDeactivated(old(rows), rows)
    {
      if Falsy(email) || Falsy(password) {
        return false;
      }
      var hashed := hasher.hash(password);
      var token := GenerateRandomHash(draws);
      if email in rows || storeError {
        return false;
      }
      ghost var before := rows;
      rows := InsertAccount(rows, email, Account(hashed, token, false));
      if UniqueTokens(before) {
        InsertKeepsUnique(before, email, Account(hashed, token, false));
      }
      if mailSent {
        return true;
      }
      // The rollback, as written: the hash is passed where the password belongs.
      var deleted := DeleteUser(email, hashed);
      UnactivatedCannotLogin(rows, hasher, email, hashed);
      return false;
    }

    /**
     * `change_password`: with every argument present and the old password
     * accepted by `login`, stores the new password's hash and blanks the
     * row's token; otherwise FALSE and no change.
     */
    method ChangePassword(email: string, oldPassword: string, newPassword: string, storeError: bool)
      returns (ok: bool)
      modifies this
      ensures (|| Falsy(email) || Falsy(oldPassword) || Falsy(newPassword)
               || !Login(old(rows), hasher, email, oldPassword)) ==> !ok && rows == old(rows)
      ensures !Falsy(email) && !Falsy(oldPassword) && !Falsy(newPassword)
              && Login(old(rows), hasher, email, oldPassword) ==>
                && ok == !storeError
                && rows == if storeError then old(rows)
                           else SetPasswordWhereEmail(old(rows), email, hasher.hash(newPassword))
      ensures UniqueTokens(old(rows)) ==> UniqueTokens(rows)
      ensures NoneDeactivated(old(rows), rows)
    {
      if Falsy(email) || Falsy(oldPassword) || Falsy(newPassword) {
        return false;
      }
      if Login(rows, hasher, email, oldPassword) {
        ok := SetPassword(email, newPassword, storeError);
      } else {
        ok := false;
      }
    }

    /**
     * `reset_password`: with an email present, stores "reset" followed by a
     * fresh md5 value as the token of the row for that email (no row changes for
     * an unknown email). If the mail fails, every row holding that token has it
     * blanked and the result is FALSE. `token` names the token that was built.
     */
    method ResetPassword(email: string, draws: seq<string>, storeError: bool, mailSent: bool)
      returns (ok: bool, ghost draw: string)
      requires Md5Draws(draws)
      requires exists i :: 0 <= i < |draws| && draws[i] !in Tokens(rows)
      modifies this
      ensures Falsy(email) || storeError ==> !ok && rows == old(rows)
      ensures !Falsy(email) && !storeError ==>
                && ok == mailSent
                && IsHex32(draw) && FirstFreeDraw(draws, Tokens(old(rows)), draw)
                && rows == if mailSent then SetTokenWhereEmail(old(rows), email, "reset" + draw)
                           else BlankTokenWhereToken(SetTokenWhereEmail(old(rows), email, "reset" + draw), "reset" + draw)
      ensures UniqueTokens(old(rows)) && "reset" + draw !in Tokens(old(rows)) ==> UniqueTokens(rows)
      ensures NoneDeactivated(old(rows), rows)
    {
      draw := "";
      if Falsy(email) {
        return false, draw;
      }
      var randomHash := GenerateRandomHash(draws);
      draw := randomHash;
      var resetHash := "reset" + randomHash;
      if storeError {
        return false, draw;
      }
      ResetNeverDeactivates(rows, email, resetHash);
      if UniqueTokens(rows) && resetHash !in Tokens(rows) {
        ResetKeepsUnique(rows, email, resetHash);
      }
      rows := SetTokenWhereEmail(rows, email, resetHash);
      if !mailSent {
        // Compensation: blank the token wherever it is stored.
        rows := BlankTokenWhereToken(rows, resetHash);
        return false, draw;
      }
      return true, draw;
    }

    /**
     * `delete_user`: when `login` accepts the credentials, removes the row for
     * that email and no other; otherwise FALSE and no change.
     */
    method DeleteUser(email: string, password: string) returns (ok: bool)
      modifies this
      ensures ok == Login(old(rows), hasher, email, password)
      ensures rows == if ok then DeleteWhereEmail(old(rows), email) else old(rows)
      ensures UniqueTokens(old(rows)) ==> UniqueTokens(rows)
      ensures NoneDeactivated(old(rows), rows)
    {
      if !Login(rows, hasher, email, password) {
        return false;
      }
      rows := DeleteWhereEmail(rows, email);
      return true;
    }

    /**
     * `check_hash_type`: NoMatch when no row holds the token; otherwise the
     * classification of a row that holds it. Several rows can hold the blank
     * token and the store returns one of them, which one is unspecified; for a
     * non-blank token in a table with unique tokens the row is determined.
     */
    method CheckHashType(hash: string) returns (r: HashType)
      ensures r == NoMatch <==> hash !in Tokens(rows)
      ensures r != NoMatch ==> exists e :: e in rows && rows[e].token == hash && r == Classify(rows[e], hash)
      ensures UniqueTokens(rows) && hash != "" ==>
                forall e :: e in rows && rows[e].token == hash ==> r == Classify(rows[e], hash)
    {
      if hash !in Tokens(rows) {
        return NoMatch;
      }
      var e :| e in rows && rows[e].token == hash;
      r := Classify(rows[e], hash);
      if UniqueTokens(rows) && hash != "" {
        forall e' | e' in rows && rows[e'].token == hash
          ensures r == Classify(rows[e'], hash)
        {
          UniqueHolder(rows, e, e');
        }
      }
    }

    /**
     * `set_password`: stores the password's hash and blanks the token of the
     * row for the email; TRUE unless the store reports an error, even when no
     * row has that email.
     */
    method SetPassword(email: string, password: string, storeError: bool) returns (ok: bool)
      modifies this
      ensures ok == !storeError
      ensures rows == if storeError then old(rows) else SetPasswordWhereEmail(old(rows), email, hasher.hash(password))
      ensures UniqueTokens(old(rows)) ==> UniqueTokens(rows)
      ensures NoneDeactivated(old(rows), rows)
    {
      if storeError {
        return false;
      }
      if UniqueTokens(rows) {
        BlankingKeepsUnique(rows, email, hasher.hash(password), "");
      }
      rows := SetPasswordWhereEmail(rows, email, hasher.hash(password));
      return true;
    }

    /**
     * `activate_account`: every row holding the token becomes activated and
     * loses the token; TRUE unless the store reports an error.
     */
    method ActivateAccount(hash: string, storeError: bool) returns (ok: bool)
      modifies this
      ensures ok == !storeError
      ensures rows == if storeError then old(rows) else ActivateWhereToken(old(rows), hash)
      ensures UniqueTokens(old(rows)) ==> UniqueTokens(rows)
      ensures NoneDeactivated(old(rows), rows)
    {
      if storeError {
        return false;
      }
      if UniqueTokens(rows) {
        BlankingKeepsUnique(rows, "", "", hash);
      }
      rows := ActivateWhereToken(rows, hash);
      return true;
    }

    // -----------------------------------------------------------------
    // Corrected versions of the two operations that miss their intent.
    // -----------------------------------------------------------------

    /**
     * The token generator as `reset_password` needs it: the uniqueness check
     * is made on the token that will be stored, "reset" followed by the draw.
     */
    method GenerateResetHash(draws: seq<string>) returns (token: string)
      requires Md5Draws(draws)
      requires exists i :: 0 <= i < |draws| && "reset" + draws[i] !in Tokens(rows)
      ensures token !in Tokens(rows)
      ensures |token| == 37 && token[..5] == "reset" && IsHex32(token[5..])
      ensures exists i :: 0 <= i < |draws| && token == "reset" + draws[i]
                          && forall j :: 0 <= j < i ==> "reset" + draws[j] in Tokens(rows)
    {
      ghost var k :| 0 <= k < |draws| && "reset" + draws[k] !in Tokens(rows);
      var i := 0;
      token := "reset" + draws[i];
      while token in Tokens(rows)
        invariant 0 <= i <= k && token == "reset" + draws[i]
        invariant forall j :: 0 <= j < i ==> "reset" + draws[j] in Tokens(rows)
        decreases k - i
      {
        i := i + 1;
        token := "reset" + draws[i];
      }
      assert token[5..] == draws[i];
    }

    /**
     * `reset_password` with the generator above: the same statements as
     * `ResetPassword`, on a reset token `token` that no row held, so a reset
     * keeps tokens unique.
     */
    method ResetPasswordCorrected(email: string, draws: seq<string>, storeError: bool, mailSent: bool)
      returns (ok: bool, ghost token: string)
      requires Md5Draws(draws)
      requires exists i :: 0 <= i < |draws| && "reset" + draws[i] !in Tokens(rows)
      modifies this
      ensures Falsy(email) || storeError ==> !ok && rows == old(rows)
      ensures !Falsy(email) && !storeError ==>
                && ok == mailSent
                && |token| == 37 && token[..5] == "reset" && IsHex32(token[5..])
                && token !in Tokens(old(rows))
                && (exists i :: 0 <= i < |draws| && token == "reset" + draws[i])
                && rows == if mailSent then SetTokenWhereEmail(old(rows), email, token)
                           else BlankTokenWhereToken(SetTokenWhereEmail(old(rows), email, token), token)
      ensures UniqueTokens(old(rows)) ==> UniqueTokens(rows)
      ensures NoneDeactivated(old(rows), rows)
      ensures !mailSent ==> forall e :: e in old(rows) && e != email ==> e in rows && rows[e] == old(rows)[e]
    {
      token := "";
      if Falsy(email) {
        return false, token;
      }
      var resetHash := GenerateResetHash(draws);
      token := resetHash;
      if storeError {
        return false, token;
      }
      ResetNeverDeactivates(rows, email, resetHash);
      ResetRollbackBlanksRow(rows, email, resetHash);
      if UniqueTokens(rows) {
        ResetKeepsUnique(rows, email, resetHash);
      }
      rows := SetTokenWhereEmail(rows, email, resetHash);
      if !mailSent {
        rows := BlankTokenWhereToken(rows, resetHash);
        return false, token;
      }
      return true, token;
    }

    /** `create_user` whose rollback removes the row it inserted: a failure leaves the table unchanged. */
    method CreateUserCorrected(email: string, password: string, draws: seq<string>, storeError: bool, mailSent: bool)
      returns (ok: bool)
      requires Md5Draws(draws)
      requires exists i :: 0 <= i < |draws| && draws[i] !in Tokens(rows)
      modifies this
      ensures !ok ==> rows == old(rows)
      ensures ok <==> !Falsy(email) && !Falsy(password) && email !in old(rows) && !storeError && mailSent
      ensures ok ==> email in rows
                     && rows == InsertAccount(old(rows), email, Account(hasher.hash(password), rows[email].token, false))
                     && IsHex32(rows[email].token) && FirstFreeDraw(draws, Tokens(old(rows)), rows[email].token)
    {
      if Falsy(email) || Falsy(password) {
        return false;
      }
      var hashed := hasher.hash(password);
      var token := GenerateRandomHash(draws);
      if email in rows || storeError {
        return false;
      }
      var before := rows;
      rows := InsertAccount(rows, email, Account(hashed, token, false));
      if mailSent {
        return true;
      }
      rows := DeleteWhereEmail(rows, email);
      assert rows == before;
      return false;
    }
  }

  /**
   * The collision behind the reset-token finding, derived from the contract of
   * `ResetPassword` alone: one row holds "reset" + x, the random source yields
   * x, and a reset for the other email leaves two rows with the same token.
   */
  method ResetCollisionScenario(h: Hasher, x: string) returns (after: Table)
    requires IsHex32(x)
    ensures !UniqueTokens(after)
  {
    var table := map["a" := Account("h", "reset" + x, true), "b" := Account("h", "", true)];
    ResetTokenCanCollide(x);
    var auth := new Authenticate(table, h);
    assert [x][0] == x && x !in Tokens(auth.rows);
    var ok, draw := auth.ResetPassword("b", [x], false, true);
    assert draw == x;
    after := auth.rows;
  }
}
