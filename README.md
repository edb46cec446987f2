# Account lifecycle of `Authenticate`, modelled in Dafny

This project models the account lifecycle of the PHP class `Authenticate`:
creating an account with an emailed activation token, logging in, changing
and resetting a password through an emailed reset token, classifying a
token from a link (`check_hash_type`), activating an account and deleting it.

The user table is the state of a Dafny class `Auth.Authenticate`. It is a map
from email to a row `Account(passwordHash, token, activated)`. Each SQL
statement of the class is a function from table to table in module
`UserTable`: INSERT, UPDATE token by email, UPDATE password by email,
UPDATE activated by token, blank token by token, and DELETE by email. Each
public operation is a method that applies these statements in the source's
order. Its postcondition gives the new table in terms of the old one and
says when the result is FALSE. `login` is a function of the table.
`check_hash_type` only reads the table, but it is a method: several rows can
hold the blank token, and the store returns any one of them.

The collaborators are parameters:
- `hasher`: a pair of total functions `hash` and `verify`. Lemmas that need
  `verify(p, hash(p))` require `Sound(hasher)`.
- `draws`: the md5 values the random source would produce. Each is 32
  lower-case hex digits. Methods that generate a token require that some draw
  is held by no row. This assumption is what makes the retry loop end.
- `mailSent`: whether `Send()` succeeded.
- `storeError`: whether the store reported an error where the code checks
  `$this->mysqli->error`.

Other modelling choices:
- PHP's `!$x` on a string argument is true for both `""` and `"0"`. The model
  treats both as missing (`Falsy`).
- The email is taken to be the table's key. An INSERT for an email that
  already has a row fails like a store error and changes nothing. The schema
  is part of `Configuration.php`, which is not part of this model.
- `activated` is a boolean (the column holds 0 or 1).

What the model shows about the code:
- The rollback in `create_user` never removes the row. The account stays,
  unactivated, with its token. See Findings.
- Two different rows can end up holding the same reset token. See Findings.
- A reset mail sent to an unactivated account replaces its activation token.
  `check_hash_type` classifies that token as `'unverified'`, because the
  activation test comes first. If the reset mail fails, the token is blanked.
  The account is then unactivated with no token, so an unactivated account
  does not always hold an activation token. The model follows the code here.
- `activate_account("")` activates every row whose token is blank.

## Model

| member | source | states |
|---|---|---|
| `Auth.Authenticate.constructor` | Authenticate.class.php:25-33 | The object works on the given user table and hasher. |
| `Auth.Authenticate.GenerateRandomHash` | Authenticate.class.php:263-280 | Returns the first draw that no row holds as a token. The result is 32 hex digits, and every earlier draw was already stored. |
| `Auth.Authenticate.CreateUser` | Authenticate.class.php:35-76 | A missing email or password, an existing email, or a store error returns FALSE and leaves the table unchanged. Otherwise exactly one unactivated row is added, holding the password's hash and the first draw that no row holds as its token. The result equals mail success. A failed mail leaves the row in place. Token uniqueness and activation flags are preserved. |
| `Auth.Authenticate.ChangePassword` | Authenticate.class.php:117-135 | A missing argument or a refused login returns FALSE with no change. Otherwise the row gets the new hash and a blank token, unless the store reports an error. |
| `Auth.Authenticate.ResetPassword` | Authenticate.class.php:138-176 | A missing email or a store error returns FALSE with no change. Otherwise the email's row gets "reset" followed by the first draw that no row holds; an unknown email changes no row. On a failed mail, every row holding that token is blanked and FALSE is returned. Uniqueness is kept only when the prefixed token was not already stored. |
| `Auth.Authenticate.DeleteUser` | Authenticate.class.php:178-191 | Succeeds exactly when `login` accepts the credentials. It then removes that email's row and no other; otherwise the table is unchanged. |
| `Auth.Authenticate.CheckHashType` | Authenticate.class.php:194-218 | Returns NoMatch exactly when no row holds the token. Otherwise it returns the classification of a row holding it. With unique tokens and a non-blank token, that is the classification of the only holder. |
| `Auth.Authenticate.SetPassword` | Authenticate.class.php:229-239 | Returns TRUE unless the store reports an error, even for an unknown email. On success the email's row gets the new hash and a blank token. |
| `Auth.Authenticate.ActivateAccount` | Authenticate.class.php:241-252 | Returns TRUE unless the store reports an error. On success every row holding the token is activated and its token blanked. |
| `UserTable.Login` | Authenticate.class.php:78-115 | TRUE exactly when email and password are present, a row exists, the password verifies against its hash, and the row is activated. |
| `UserTable.Classify` | Authenticate.class.php:209-217 | 'unverified' exactly for an unactivated row; that check comes first. 'reset' exactly for an activated row whose token contains "reset" anywhere. No value otherwise. |
| `UserTable.Tokens` | Authenticate.class.php:266-275 | The set of tokens stored in the table, which the generator's lookup searches. |
| `UserTable.InsertAccount` | Authenticate.class.php:49-51 | The new row is added and every existing row is kept. |
| `UserTable.SetTokenWhereEmail` | Authenticate.class.php:152-154 | Only the row for the email changes, and only its token. |
| `UserTable.SetPasswordWhereEmail` | Authenticate.class.php:234-236 | Only the row for the email changes: new hash, blank token, same activation flag. |
| `UserTable.ActivateWhereToken` | Authenticate.class.php:247-249 | Rows holding the token become activated with a blank token. All other rows are unchanged. |
| `UserTable.BlankTokenWhereToken` | Authenticate.class.php:170 | Rows holding the token lose it. All other rows are unchanged. |
| `UserTable.DeleteWhereEmail` | Authenticate.class.php:186-188 | Exactly the row for the email is removed. The other rows are unchanged. |
| `UserTable.GeneratedTokenNeverReset` | Authenticate.class.php:214 | A token straight from md5 output is never classified 'reset', because hex digits never spell "reset". |
| `UserTable.ResetTokenIsReset` | Authenticate.class.php:149 | The token built by `reset_password` is classified 'reset' on an activated row. |
| `UserTable.UniqueHolder` | Authenticate.class.php:198-202 | With unique tokens, a non-blank token is held by one row at most. |
| `UserTable.InsertKeepsUnique` | Authenticate.class.php:46-51 | Inserting a row whose token is not stored keeps tokens unique. |
| `UserTable.SetFreshTokenKeepsUnique` | Authenticate.class.php:152-154 | Storing a token that no row holds keeps tokens unique. |
| `UserTable.BlankingKeepsUnique` | Authenticate.class.php:234 | Setting a password, activating, blanking a token or deleting a row keeps tokens unique. |
| `UserTable.StatementsNeverDeactivate` | Authenticate.class.php:247 | No statement turns an activated account back to unactivated: the INSERT of a new email, the token and password updates by email, activation, blanking and DELETE, on any table. |
| `UserTable.ActivationConsumesToken` | Authenticate.class.php:247-249 | After activation no row holds the non-blank token, so `check_hash_type` returns NoMatch. Every row that held it is activated. |
| `UserTable.ActivationIdempotent` | Authenticate.class.php:241-252 | Activating twice with the same token gives the same table as activating once. |
| `UserTable.ResetNeverDeactivates` | Authenticate.class.php:152-170 | The reset update and its compensation deactivate no account. |
| `UserTable.ResetKeepsUnique` | Authenticate.class.php:152-170 | A reset whose token no row holds keeps tokens unique, with or without the compensation. |
| `UserTable.ResetRollbackBlanksRow` | Authenticate.class.php:149-172 | With a token no row held, a reset followed by its compensation blanks that email's row. The previous token is not restored, and nothing else changes. For an unknown email the table is unchanged. |
| `UserTable.UnactivatedCannotLogin` | Authenticate.class.php:108-112 | An unactivated account is refused with any password, including the correct one. |
| `UserTable.RegistrationThenActivation` | Authenticate.class.php:49-51 | With a sound hasher, a freshly inserted account cannot log in. After activation with its token, the same credentials log in. |
| `UserTable.NewPasswordLogsIn` | Authenticate.class.php:229-239 | With a sound hasher, an activated account logs in with the password just set. |
| `UserTable.DeletedCannotLogin` | Authenticate.class.php:178-191 | After deletion the account cannot log in, and other accounts log in as before. |
| `UserTable.ResetTokenCanCollide` | Authenticate.class.php:146-154 | For any md5 draw x, there is a table with unique tokens where no row holds x, yet storing "reset" + x gives two rows the same token. |
| `Text.HexHasNoReset` | Authenticate.class.php:269 | No string of hex digits contains "reset". |
| `Text.PrefixIsContained` | Authenticate.class.php:214 | A string contains its own prefix, so the `strpos` test fires on a "reset"-prefixed token. |
| `Text.ReplaceSkipsPrefix` | Authenticate.class.php:331 | `str_replace` copies text that cannot start the search string unchanged. |
| `Text.ReplaceFillsTemplate` | Authenticate.class.php:331-332 | In a template of literal parts joined by the placeholder, every placeholder is replaced and the literal parts are kept. |
| `Mail.GenerateEmail` | Authenticate.class.php:313-334 | Returns a message exactly for the kinds 'registration' and 'reset', addressed to the given email with that kind's subject. Any other kind yields FALSE. |
| `Mail.GenerateEmailFillsToken` | Authenticate.class.php:331-332 | Both bodies of the mail carry the token in every place the `$random_hash` placeholder stood, with the rest of the text unchanged. |
| `Auth.Authenticate.GenerateResetHash` | Authenticate.class.php:146-149 | Corrected generator for resets: returns a "reset"-prefixed hex token that no row holds. |
| `Auth.Authenticate.ResetPasswordCorrected` | Authenticate.class.php:138-176 | Corrected reset: the same statements as `reset_password` on a "reset"-prefixed hex token that no row held. On success the email's row holds it; on a failed mail every holder is blanked. Tokens stay unique, and a failed mail leaves every other row unchanged. |
| `Auth.ResetCollisionScenario` | Authenticate.class.php:146-154 | From the contract of `ResetPassword` alone: with one row holding "reset" + x and the random source yielding x, a reset for another email leaves two rows with the same token. |
| `Auth.Authenticate.CreateUserCorrected` | Authenticate.class.php:35-76 | Corrected creation: FALSE leaves the table exactly as before. TRUE adds one unactivated row with a fresh token. |

## Findings

| source | as written | input that shows it | evidently intended | confidence | as-written member | corrected member |
|---|---|---|---|---|---|---|
| Authenticate.class.php:72 | The rollback calls `delete_user($email, $password)`. `$password` was already replaced by its hash at line 43, and `delete_user` first needs `login`, which refuses an unactivated row at line 108. | Any `create_user` with present arguments whose mail `Send()` fails. | The row just inserted is removed when the mail fails. | high; not executed | `Auth.Authenticate.CreateUser` | `Auth.Authenticate.CreateUserCorrected` |
| Authenticate.class.php:146-154 | `generate_random_hash` checks that the bare md5 value x is not stored, but `reset_password` stores "reset" followed by x. | One row holds "reset" + x from an earlier reset, and a reset for another email draws x again. | The stored reset token is held by no other row. | medium: needs the random source to repeat a value; not executed | `Auth.ResetCollisionScenario` | `Auth.Authenticate.ResetPasswordCorrected` |

## Left out

- The database connection, prepared-statement mechanics and the `echo` of error messages (Authenticate.class.php:25-33 and each `echo`). They are I/O and presentation; only results and table changes are modelled.
- `logout` (Authenticate.class.php:220-227). It only clears the PHP session, which is outside the user table.
- The internals of `Encrypt` (`includes/Encrypt.class.php` is not part of this model). Hashing is an abstract deterministic function, so salting is not modelled. Verifying against a missing row's hash is taken to fail.
- The PHPMailer settings and `Send()` (Authenticate.class.php:286-311, 63, 165). Send success is an input. The templates and subjects come from `Configuration.php`, which is not part of this model, and are parameters.
- `md5(uniqid(rand(), true))`. The random values are the input sequence `draws`. The loop's termination rests on the requirement that some draw is not stored.
- Concurrency: the check-then-act in the token generator and the login-then-change sequences. The code runs one request at a time.
- Auth.Authenticate.GenerateRandomHash: the store-error path at Authenticate.class.php:277-280, where the function returns nothing, is not modelled.
- UserTable.Login: the store error checked at Authenticate.class.php:93 is not modelled. It would only add one more way to return FALSE.
- Auth.Authenticate.CheckHashType: uses exact string equality. PHP's loose `!=` at Authenticate.class.php:204 compares an empty token equal to the NULL of a missing row, so `check_hash_type("")` with no blank row returns no value instead of FALSE. This is not modelled.
- UserTable.Login: PHP's strict `=== 0` at Authenticate.class.php:108 depends on the driver returning an integer. The model uses a boolean flag.
- Mail.GenerateEmailFillsToken: covers templates whose literal text holds no `$`. For other templates, the substitution is given only by `Text.Replace`.
- Auth.Authenticate.CreateUser: follows the intended INSERT. Authenticate.class.php:50 passes the literal `0` to `bind_param`, which takes its values by reference; PHP refuses a literal there, so as written `create_user` would stop at line 50 before the INSERT. The model assumes the value 0 is bound and the INSERT runs.
- Failures of the compensating statements (the blanking UPDATE at line 170 and the DELETE at line 186). The code does not check them, and the model treats them as succeeding.
