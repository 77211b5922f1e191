# A verified model of the storefront's security core

This project models, in Dafny, the security and data-protection core of a small
Flask storefront, together with the cart, checkout and admin rules that sit on
top of it. It then proves properties of that model.

- **Field encryption.** `AESCipher` seals a value with AES-256-GCM and
  stores it as base 64 of `nonce ‖ tag ‖ ciphertext`. The `EncryptedString`
  column type encrypts on write and decrypts on read. Legacy plaintext that
  does not decrypt reads back as it is. The model writes out base 64
  (RFC 4648, the lenient decoder CPython uses) and UTF-8. The cipher itself
  is a pair of functions, `seal` and `open`. The round trip of those two
  functions is the only assumption, and it is stated as a predicate
  `Sound`, not an axiom.
- **The audit recorder.** The insert, update and delete listeners turn
  persistence events of users, orders and products into rows of
  `audit_logs`. An update with no changed column writes nothing. Audit rows
  are never audited themselves.
- **The session security monitor.**
  - `init_session_security` binds a session to a user and an address.
  - `validate_session` enforces the address binding, 30 minutes of
    inactivity and 24 hours from login, and refreshes the activity stamp.
  - `clear_session_security` pops the six security keys.
  - The decorator and the before-request gate log out a session that fails.
- **Authentication.** The routes covered are login, logout, TOTP enrolment,
  second-factor login and disabling 2FA, plus the open-redirect check on
  `next`.
- **The shop.**
  - The cart routes.
  - Checkout: the stock check, the simulated payment, the order and its
    items with price snapshots, stock decrement and emptying the cart.
  - The order ownership rule.
- **The admin panel.** The `admin_required` guard, the cascading deletions
  and order status updates.
- **Form rules** and the two template filters `nl2br` and `product_image`.

Stateful code is modelled imperatively:
- The session is a class, `SessionSecurity.Session`, whose methods change
  its fields.
- The database is a class, `Models.Db`, with one map per table from primary
  key to row, plus the next autoincrement key.
- The routes are methods over the two.
- The checkout loop is a `while` loop whose invariant ties the tables to
  closed-form specification functions.

Pure code becomes functions and lemmas. Prices are integer cents and times are
integer seconds.

External decisions are parameters of the methods:
- the password check (bcrypt);
- TOTP verification;
- `urljoin`/`urlparse`;
- the freshly generated secret;
- the nonce;
- the client address;
- the clock.

Points of the code's behaviour that the model keeps as they are:
- **Pending MFA state on login.** A password-only login clears neither
  pending key, and a second-factor login pops only `mfa_user_id`.
- **Who clears an invalid session.** `validate_session` only answers. The
  decorator or the before-request gate logs out and clears the keys.
- **MFA code format.** The forms check only that a code is six characters
  long, not that it is digits (`Forms.MfaCodeLengthOnly`).
- **Who counts as logged in.** Every test of `current_user.is_authenticated`
  is `Auth.CurrentUser`, or `Session.IsAuthenticated` over `Models.ActiveIds`:
  the session names a user, `user_loader` still finds that user, and the
  account is active. With Flask-Login 0.6 and later, `UserMixin` answers
  `is_authenticated` with `is_active`. Once a logged-in user's row is deleted
  or deactivated, the session counts as anonymous. The gate then leaves it
  alone, and the login-only and admin routes send it to the login page.
- **Checkout runs the checks as written.** `Shop.Checkout` uses the form and
  the payment check exactly as the code has them. The stricter checks are
  the corrected halves of the findings below.

## Model

| member | source | states |
|---|---|---|
| Encryption.KeySource | app/encryption.py:9 | a non-empty argument is the key text used, and whatever text is used is non-empty, so an empty one counts as absent |
| Encryption.NewCipher | app/encryption.py:7-27 | construction fails with "not set" exactly when no non-empty key text is supplied; a key that is not 32 bytes is refused; an accepted cipher keeps the decoded key bytes |
| Encryption.NoKeyNoCipher | app/encryption.py:9-27 | with no argument, construction fails exactly when the variable is unset, empty or does not give 32 bytes, and reports "not set" exactly in the first two cases |
| Encryption.EncodedKeyAccepted | app/encryption.py:13-27 | the URL-safe base 64 text of 32 bytes is accepted and yields exactly those bytes as the key |
| Encryption.RawKeyFallback | app/encryption.py:13-23 | a key text that is not valid base 64 is used as its UTF-8 bytes, so it is accepted exactly when those are 32 bytes |
| Encryption.Encrypt | app/encryption.py:29-38 | `encrypt` yields `None` exactly for `None` |
| Encryption.Decrypt | app/encryption.py:40-52 | `decrypt(None)` is `None`; `decrypt` is total, so no failure escapes it |
| Encryption.TokenLayout | app/encryption.py:33-47 | the token decodes to the nonce, then a 16-byte tag, then a ciphertext as long as the UTF-8 plaintext, which are exactly the slices `decrypt` takes at 12 and 28 |
| Encryption.DecryptEncrypt | app/encryption.py:29-52 | round trip: `decrypt(encrypt(s)) == s` for every string |
| Encryption.TokenDiffersFromText | app/encryption.py:33-38 | a token is longer than its plaintext, so `encrypt(s) != s` |
| Encryption.FreshNonceFreshToken | app/encryption.py:33-38 | encryptions under different nonces never give the same token |
| Encryption.ShortTokenRejected | app/encryption.py:43-52 | fail closed: text too short to hold nonce and tag decrypts to `None` under every key |
| Encryption.RejectedTagRejected | app/encryption.py:48-52 | fail closed: a token whose tag the library rejects decrypts to `None` |
| Base64.Encode | app/encryption.py:38 | `b64encode` output is four characters per started group of three bytes |
| Base64.RunEncode | app/encryption.py:44 | decoding the encoding of `b` from a group boundary appends exactly `b` to the output |
| Base64.DecodeEncode | app/encryption.py:38-44 | round trip: `b64decode(b64encode(b)) == b` |
| Base64.UrlSafeDecodeEncode | app/encryption.py:14 | round trip through the URL-safe alphabet, which the key decoding uses |
| Base64.EncodeIsAscii | app/encryption.py:38 | every character of an encoding is ASCII, so `.decode('utf-8')` of it cannot fail |
| Base64.EncodeChars | app/encryption.py:38 | each character of an encoding is an alphabet character or the pad |
| Base64.DecodeLength | app/encryption.py:44 | decoding never yields more bytes than the text has characters |
| Base64.EncodeInjective | app/encryption.py:38 | distinct byte strings have distinct encodings |
| Utf8.DecodeEncode | app/encryption.py:36-50 | `s.encode('utf-8').decode('utf-8') == s` for every string |
| Utf8.EncodeDecode | app/encryption.py:50 | whatever decodes is the encoding of what it decodes to |
| Utf8.EncodeLength | app/encryption.py:36 | every character takes at least one byte, so the encoding is at least as long as the text |
| Utf8.DecodeEncodeChar | app/encryption.py:50 | the decoder reads back the first encoded character, whatever follows it |
| Utf8.EncodeDecodeChar | app/encryption.py:50 | a well-formed first character is the encoding of the character decoded |
| Models.BindParam | app/models.py:16-19 | `None` is stored exactly for `None` |
| Models.ResultValue | app/models.py:21-27 | a missing value reads as missing; a value that decrypts reads as its decryption; a stored value that does not decrypt reads as itself |
| Models.WriteThenRead | app/models.py:13-27 | writing and reading back a field gives the value back, while what is stored differs from it |
| Models.LegacyValueReadsBack | app/models.py:21-27 | a stored value that does not decrypt is read back unchanged |
| Models.ShortLegacyValueReadsBack | app/models.py:21-27 | any stored text shorter than 28 characters reads back unchanged |
| Models.Db.InsertOrderItem | app/main/routes.py:249-255 | the new order item takes the next autoincrement key and no other table changes |
| Models.Db.TakeStock | app/main/routes.py:258 | only that product's stock drops, by exactly the quantity, and stays non-negative |
| Models.Db.SetMfa | app/auth/routes.py:179-181 | only the two MFA columns of that user change |
| Models.Db.SetOrderStatus | app/admin/routes.py:283-284 | only that order's status changes |
| Models.Db.DeleteOrder | app/models.py:227 | the order goes, together with exactly its order items |
| Models.Db.DeleteUser | app/models.py:67-68 | the user goes, together with exactly their orders, those orders' items and their cart lines |
| Models.Db.DeleteProduct | app/models.py:147-148 | the product goes, together with exactly its order items and cart lines |
| Models.Db.DeleteCategory | app/models.py:107 | the category goes, together with its products and their order items and cart lines |
| Audit.NewEntries | app/audit.py:21-49 | one call adds at most one row, and none for an `AuditLog` target |
| Audit.CreateAuditLog | app/audit.py:21-52 | with a connection whose insert succeeds, the table gains exactly the `log_data` row; otherwise nothing changes; the caller never sees the failure |
| Audit.AfterInsert | app/audit.py:54-57 | an insert appends one `INSERT` row holding a full snapshot of the columns |
| Audit.AfterDelete | app/audit.py:75-78 | a delete appends one `DELETE` row holding a full snapshot of the columns |
| Audit.CollectChanges | app/audit.py:61-70 | the diff has exactly the columns whose history has changes, each with its `{old, new}` pair |
| Audit.AfterUpdate | app/audit.py:59-73 | an update appends one `UPDATE` row with that diff, or nothing when no column changed |
| Audit.Registry.RegisterAuditListeners | app/audit.py:80-85 | afterwards all three events of every given class are listened to, and nothing else is added |
| Audit.AuditLogNeverAudited | app/audit.py:25-26 | no event on an `AuditLog` ever produces a row |
| Audit.SnapshotEntry | app/audit.py:29-37 | an insert or delete row names the class and the `str(id)` of the object, and carries every column's current value |
| Audit.EntryAttribution | app/audit.py:9-19 | `user_id` is set exactly inside a request with a logged-in user; `ip_address` is `'system'` outside a request |
| Audit.EmptyDetailsStoredAsNone | app/audit.py:34 | an empty details dictionary is stored as `None` |
| Audit.UpdateLoggedIffChanged | app/audit.py:59-73 | an update is logged exactly when some column changed, with exactly those columns in the diff |
| Audit.AuditDetailsHoldPlaintext | app/audit.py:54-57 | the insert snapshot of a user carries the decrypted phone number into the unencrypted `details` column, while the users table stores a token that differs from it |
| SessionSecurity.Session.InitSecurity | app/session_security.py:11-23 | binds the user, the address and the two stamps at `now`, makes the session permanent and leaves the MFA keys alone |
| SessionSecurity.Session.Validate | app/session_security.py:26-55 | the answer is the validation verdict, where "authenticated" means the session names an active user the table still holds; on success for such a user only `last_activity` moves to `now`; otherwise nothing changes |
| SessionSecurity.Session.ClearSecurity | app/session_security.py:118-125 | exactly the six security keys are removed |
| SessionSecurity.Session.Logout | app/auth/routes.py:97 | the session no longer names a user and nothing else changes |
| SessionSecurity.Session.SecurityRequired | app/session_security.py:128-143 | for a session whose user is active and still in the table, the route runs exactly when the verdict passes, and otherwise the user is logged out and the keys cleared; any other session runs the route unchanged |
| SessionSecurity.AnonymousAlwaysValid | app/session_security.py:36-37 | without a logged-in user every request passes |
| SessionSecurity.MissingKeysInvalid | app/session_security.py:40-41 | a missing `ip_address` or `last_activity` fails a logged-in session |
| SessionSecurity.MissingLoginTimeExpires | app/session_security.py:85-95 | a missing or unreadable login stamp counts as expired |
| SessionSecurity.IpMismatchInvalid | app/session_security.py:58-75 | a request from another address fails |
| SessionSecurity.InactivityBoundary | app/session_security.py:99-105 | exactly thirty idle minutes pass; one second more expires |
| SessionSecurity.AbsoluteTimeoutWins | app/session_security.py:107-113 | more than 24 hours after login the session is expired, however recent its activity |
| SessionSecurity.ExpiryIsPermanent | app/session_security.py:78-115 | once expired, a session stays expired at every later time |
| SessionSecurity.InitThenValidate | app/session_security.py:11-55 | right after binding, a request passes exactly when it comes from the bound address within thirty minutes |
| SessionSecurity.ValidImpliesRecentLogin | app/session_security.py:107-113 | a passing session logged in at most 24 hours ago, and refreshing its activity does not move its login stamp |
| Auth.NextPage | app/auth/routes.py:18-29 | the redirect target is either the index or the given `next`, and `next` only when it is non-empty and resolves to `http`/`https` on the request's own host |
| Auth.FindByEmail | app/auth/routes.py:66 | finds the account with that email exactly when there is one |
| Auth.CurrentUser | app/__init__.py:58-62 | `current_user` is the id the session names, and only while that user still exists and is active |
| Auth.Login | app/auth/routes.py:58-90 | each outcome holds exactly under its condition, where "already logged in" is `current_user`. A deactivated account, a wrong password and an unknown email change nothing. An MFA account only stages `mfa_user_id`. Otherwise the user is logged in and the session bound to the request's address and time |
| Auth.LogoutRoute | app/auth/routes.py:93-100 | a logged-in user is logged out and all six security keys are cleared |
| Auth.Enable2fa | app/auth/routes.py:147-188 | each outcome holds exactly under its condition. Already enabled changes nothing; a GET stages the new secret; a POST with no pending secret is refused. A wrong code changes neither the account nor the pending secret. A correct one stores the secret, enables MFA and pops the pending secret |
| Auth.Verify2faLogin | app/auth/routes.py:191-222 | each outcome holds exactly under its condition, where "already logged in" is `current_user`. A missing pending id or unknown user is sent to login and a wrong code keeps the pending id. A correct code logs an active user in, binds the session and pops `mfa_user_id` |
| Auth.Disable2fa | app/auth/routes.py:225-233 | the logged-in user's secret and flag are cleared unconditionally, which keeps "enabled implies a secret" |
| Forms.CvvField | app/forms.py:134-138 | a valid non-blank CVV is exactly 3 or 4 ASCII digits |
| Forms.AccountField | app/forms.py:139-143 | a valid non-blank account is 10–30 ASCII letters and digits |
| Forms.DataRequiredMeaning | app/forms.py:13-16 | `DataRequired` accepts exactly the text that has a non-whitespace character |
| Forms.RegistrationRules | app/forms.py:11-50 | a valid registration has a 4–80 character username, an 8+ character password confirmed exactly, and a username and email no account has |
| Forms.RegistrationKeepsAccountsUnique | app/forms.py:40-50 | storing a valid registration under a fresh key keeps usernames and emails unique |
| Forms.ProfileKeepsAccountsUnique | app/forms.py:175-187 | skipping the query for an unchanged username or email still keeps both unique after saving |
| Forms.PasswordChangeRules | app/forms.py:190-200 | a valid password change has an 8+ character new password confirmed exactly |
| Forms.MfaCodeLengthOnly | app/forms.py:216-231 | only the length of an MFA code is checked: six letters pass, five digits do not |
| Forms.StatusInChoices | app/forms.py:204-212 | a valid status is one of the five order statuses |
| Forms.CardNumberRules | app/forms.py:124-128 | a valid non-blank card number has 16–20 characters, each a digit or whitespace |
| Forms.ExpiryRules | app/forms.py:129-133 | a valid non-blank expiry is `MM/YY` with the month in 01–12 |
| Forms.CvvNewlineAccepted | app/forms.py:134-138 | as written, `"123\n"` passes the CVV field; the corrected field refuses it |
| Forms.AccountNewlineAccepted | app/forms.py:139-143 | as written, `"1234567890\n"` passes the account field; the corrected field refuses it |
| Shop.Clamp | app/main/routes.py:114-117 | a request below 1 becomes exactly 1, and any other request is kept |
| Shop.AddDecision | app/main/routes.py:110-133 | out of stock exactly when the product is not in stock. A new line, or an updated line sum, is accepted only within the stock, and "exceeds stock" only when the clamped quantity or the sum is over it |
| Shop.FindLine | app/main/routes.py:123-126 | finds the user's line for the product exactly when one exists |
| Shop.UserLines | app/main/routes.py:192 | lists exactly the user's cart lines, each once, in key order |
| Shop.AddToCart | app/main/routes.py:104-145 | a missing product is a 404. The outcome is what the decision says: a line is added with the clamped quantity, or the existing line's quantity rises by it. Refusals change nothing and no other table changes |
| Shop.UpdateCart | app/main/routes.py:148-169 | another user's line is forbidden. A quantity below 1 deletes the line, one above the stock is refused, and otherwise the quantity is set |
| Shop.RemoveFromCart | app/main/routes.py:172-185 | another user's line is forbidden; the owner's line is removed and nothing else changes |
| Shop.OrderDetail | app/main/routes.py:297-308 | not logged in exactly without a current user, 404 exactly for an unknown order; a non-admin is shown exactly the orders they own, an admin every order, and a refusal is only for someone else's order seen by a non-admin |
| Shop.FirstUnavailable | app/main/routes.py:198-202 | reports no line exactly when every line is in stock and within stock, and otherwise the first line that is not |
| Shop.DecrementedClosedForm | app/main/routes.py:257-258 | after decrementing for some lines, each product has lost exactly what those lines hold of it, and keeps everything else |
| Shop.NewItemList | app/main/routes.py:248-255 | one order item per cart line, in order, each with the line's product, its quantity and the product's price at that moment |
| Shop.WithItemsClosedForm | app/main/routes.py:248-255 | the rows already there stay, the item of the `i`-th line gets key `oid + 1 + i`, and no other key is added |
| Shop.OrderTotalIsItemsTotal | app/main/routes.py:232-255 | the total stored on the order equals the sum of its items' totals |
| Shop.QtyForOneLine | app/models.py:180 | with one line per user and product, a user's lines hold of a product either nothing or exactly that one line's quantity |
| Shop.StockAfterCheckout | app/main/routes.py:199-258 | after lines that passed the stock check, each product has lost exactly its line's quantity, and no stock is negative |
| Shop.StockStep | app/main/routes.py:257-258 | one round of the loop lowers one product's stock by its line's quantity and leaves it non-negative |
| Shop.AddItemRow | app/main/routes.py:249-255 | the first half of a round adds the item of the next line under the next key, and keeps the loop state |
| Shop.LowerStock | app/main/routes.py:257-258 | the second half of a round decrements the line's product and keeps the loop state |
| Shop.AddOrderItems | app/main/routes.py:247-258 | the loop creates exactly the items of the closed form and leaves exactly the decremented stock |
| Shop.PlaceOrder | app/main/routes.py:227-263 | the order row with the cart total, its items, the decremented stock and the user's emptied cart, and nothing else changes |
| Shop.Checkout | app/main/routes.py:188-278 | each outcome holds exactly under its condition, with the form and payment check as written: empty cart, unavailable line, form shown, payment refused, placed. Only a placed order changes any table, and then exactly as the order placement says |
| Shop.BlankCardDigits | app/main/routes.py:211 | removing spaces cannot turn a blank card number into a non-blank one |
| Shop.StoredPaymentDetailsWellFormed | app/main/routes.py:209-240 | an order that passed the corrected form and check stores only the chosen kind of payment details. A card has a number that is not the declined one, an `MM/YY` expiry and a 3–4 digit CVV. A transfer has a 10–30 character alphanumeric account |
| Shop.BlankCardOrderFormAsWritten | app/forms.py:124-138 | the blank-details card order passes the form as written |
| Shop.BlankCardOrderPaymentAsWritten | app/main/routes.py:210-219 | the blank-details card order passes the payment check as written |
| Shop.BlankCardOrderPaymentCorrected | app/main/routes.py:210-214 | the corrected check asks that order for its card details |
| Shop.AsWrittenCardProceeds | app/main/routes.py:210-219 | as written, every card order proceeds when its expiry and CVV are non-empty and its card digits are non-empty and do not start with `0` |
| Shop.BlankCardDetailsAccepted | app/main/routes.py:209-240 | as written, a card order with a blank expiry and CVV is accepted and stored with them, and the corrected check refuses it |
| Shop.DeclinedNumberRefused | app/main/routes.py:216-219 | the all-zero card number is declined, with or without spaces |
| Shop.CashOnDeliveryProceeds | app/main/routes.py:209-225 | a method needing no details always proceeds |
| Shop.PaymentCheckStricter | app/main/routes.py:209-224 | the corrected check refuses whatever the check as written refuses |
| Admin.AdminRequired | app/admin/routes.py:15-23 | not logged in exactly when there is no current user; allowed exactly when that user's role is `admin`; otherwise forbidden |
| Admin.Acting | app/__init__.py:58-62 | the acting user is the current user's row, present exactly when `current_user` is |
| Admin.EmptyCategoryCascade | app/admin/routes.py:222-228 | deleting a category no product belongs to takes no product, cart line or order item with it |
| Admin.DeleteUserRoute | app/admin/routes.py:317-332 | a non-admin is refused, an unknown id is a 404 and self-deletion is refused, all changing nothing. Otherwise the user goes with their orders, order items and cart lines, and the acting admin stays |
| Admin.DeleteCategoryRoute | app/admin/routes.py:216-231 | a category with products is refused. Otherwise only the category goes, and every other table is unchanged |
| Admin.DeleteProductRoute | app/admin/routes.py:146-160 | an admin's deletion removes the product with its order items and cart lines; everything else stays |
| Admin.DeleteOrderRoute | app/admin/routes.py:335-345 | an admin's deletion removes the order and its items; everything else stays |
| Admin.UpdateOrderStatus | app/admin/routes.py:275-287 | an admin's valid submission sets the order's status to one of the five choices. Anything else leaves the orders alone, and no other table changes |
| App.ValidateSessionSecurity | app/__init__.py:134-151 | exempt endpoints pass untouched. A session whose user is active and still in the table is redirected exactly when the verdict fails, and then logged out with its keys cleared. Any other session passes unchanged |
| App.PassedCheckIsStable | app/__init__.py:146-151 | a session that just passed the check passes it again at the same instant |
| App.Nl2Br | app/__init__.py:66-70 | `None` renders as the empty string |
| App.NewlinesFollowBr | app/__init__.py:70 | every newline of the output is preceded by `<br>` |
| App.UnescapeNl2Br | app/__init__.py:66-70 | the filter loses nothing: turning each `<br>` and newline back into a newline recovers the input |
| App.Nl2BrLength | app/__init__.py:70 | the output grows by four characters per newline, and text without newlines is unchanged |
| App.ProductImage | app/__init__.py:72-87 | a product with an image file gets the uploads path ending in that name; otherwise it gets the placeholder of its id |
| App.PlaceholderInjective | app/__init__.py:80-87 | distinct ids get distinct placeholders |
| App.UploadNeverPlaceholder | app/__init__.py:77-87 | an uploaded image's address is never a placeholder |
| App.RegisterListeners | app/__init__.py:153-157 | exactly users, orders and products get audit listeners, for all three events |
| Text.StripEmptyIffAllSpace | app/forms.py:14 | `strip()` empties exactly the all-whitespace text |
| Text.ReplaceCharLength | app/__init__.py:70 | a one-character replace grows the text by the replacement's extra length per occurrence |
| Text.ReplaceAbsentChar | app/__init__.py:70 | replacing a character that does not occur changes nothing |
| Text.RemoveCharRemovesAll | app/main/routes.py:211 | after `replace(' ', '')` no space is left |
| Text.ReplaceKeepsAllSpace | app/main/routes.py:211 | replacing in whitespace by whitespace leaves only whitespace |
| Text.ParseIntOfDecimal | app/audit.py:33 | `str(n)` reads back as `n` |
| Text.IntToDecimalInjective | app/audit.py:33 | distinct ids have distinct `str` texts, so `resource_id` identifies the object |

## Left out

- AES-GCM itself. The library's `seal` and `open` are parameters, and the round trip is a hypothesis (`Sound`).
- Nonces from `os.urandom` are a parameter.
- TOTP verification, `random_base32`, the provisioning URI, QR rendering and bcrypt are parameters or left out. They are foreign computations.
- Time is integer seconds, read from a parameter. The ISO text of a stamp is not modelled: a stamp is an instant or unreadable, and an empty string counts as unreadable.
- Prices are integer cents. The `float` conversion of `get_total` is not modelled.
- Python's `\d` is treated as the ASCII digits. It also matches other Unicode decimal digits.
- The `Email()` validator's syntax check is a parameter.
- Auth.NextPage: `urljoin` and `urlparse` are a parameter `resolve`, so only the predicate over the parsed scheme and host is stated.
- `request.remote_addr` is always a string. The case where it is `None` is not modelled.
- The following plumbing has no security effect on the modelled state and is left out:
  - CSRF tokens;
  - `remember_me`;
  - the rate limiter on login;
  - flash messages;
  - templates and redirect targets;
  - pagination;
  - search;
  - error handlers.
- The register, profile and change-password routes are not modelled. Only their form rules are (`Forms.*`).
- The view-only routes and the JSON API routes are not modelled. They change no state.
- Writing the audit row is not tied to the route methods. The listeners are modelled on their own, as `Audit.AfterInsert` and the others.
- Database commits and transactions are not modelled.
- `generate_order_number` is a parameter, and the uniqueness of order numbers is not modelled.
- Image files: the upload, and the deletion in `delete_product`, are left out. The helpers are not part of this model.
- Shop.Checkout: the pre-filling of the shipping address on a GET only sets a form default, and is left out.
- App.ProductImage: `url_for` percent-encoding of the file name is not modelled.
- Cross-request concurrency on the activity refresh is not modelled. The code has no lock there.
- UserRow, OrderRow and ProductRow leave out the `created_at` and `updated_at` columns, so the audit snapshots lack them. The `details` payload is a map from column to value, not the `json.dumps(..., default=str)` text the code stores.
- Nl2Br returns a plain string. The code wraps it in `Markup` without escaping the input, so any HTML in the text reaches the page as markup; the model does not capture that.
- Each route is modelled as one atomic step. Two checkouts running at once could both pass the stock check and both write back `stock - quantity`, selling one unit twice. StockAfterCheckout holds only when checkouts run one after another.
- Every table draws its keys from one shared counter, `Db.nextId`. SQLite gives each table its own sequence, so an order's first item does not really get key `oid + 1`. No contract depends on the key values beyond their freshness.
- The installed Flask-Login version is assumed to be 0.6 or later, where an inactive account is not authenticated. Older versions answer `is_authenticated` with `True`.
- Auth.Login: an existing `mfa_user_id` or `mfa_secret_setup` is not cleared by a password-only login, exactly as in the code.

## Findings

| source | as written | input that shows it | evidently intended | confidence | as-written member | corrected member |
|---|---|---|---|---|---|---|
| app/forms.py:134-138 | `Regexp(r'^\d{3,4}$')` under `re.match`, where `$` also matches before a final newline | CVV `"123\n"` (4 characters, passes `Length(3, 4)`) | only 3 or 4 digits, as the message says | not executed | Forms.CvvNewlineAccepted | Forms.CvvField |
| app/forms.py:139-143 | `Regexp(r'^[0-9a-zA-Z]+$')`, with the same `$` behaviour | bank account `"1234567890\n"` | only letters and digits | not executed | Forms.AccountNewlineAccepted | Forms.AccountField |
| app/main/routes.py:210-212 | `not form.card_expiry.data` and `not form.card_cvv.data` treat only `""` as missing, but `Optional()` lets whitespace-only text through unvalidated | a card order whose expiry and CVV are `" "` is accepted and stored with them | blank card details count as missing | not executed | Shop.BlankCardDetailsAccepted | Shop.StoredPaymentDetailsWellFormed |
