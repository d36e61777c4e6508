# MazeBank: backend handlers, transfer page and registration page

MazeBank is a small online bank. This Dafny project models three of its parts.

- **Backend handlers** (`server.js`), as the class `Server.Backend`:
  - `/login` checks that both fields are present and looks the user up by the trimmed, lower-cased address.
  - It checks the stored credential with bcrypt when the credential carries the `$2a$`/`$2b$`/`$2y$` prefix, and by exact comparison otherwise.
  - After a legacy plain-text match it rewrites that user's password with its hash in place. This migration is best-effort: login still succeeds if the write fails.
  - `/dataUser`, `/transaction`, `/api/enviar-comprobante` and `/register` each run ordered input checks with early returns. They then map the result of a stored procedure or of `sendMail` to an HTTP status and a JSON body.
- **The transfer page** (`transferir.component.ts`), as the class `TransferForm.Transferir`:
  - the fee and total preview;
  - the form check;
  - the request with its MySQL timestamp;
  - the handling of the reply, and the receipt and the e-mail that carries it;
  - the reset.
- **The registration page** (`registro.ts`), as the class `RegistrationForm.Registro`:
  - the e-mail shape check (shared with the server);
  - the ordered form checks and the normalised request;
  - the mapping of HTTP error statuses to messages;
  - clearing the form and closing the success panel;
  - grouping a card number into blocks of four.

## How the model is built

- **The server's collaborators** are replaced as follows.
  - The `users` table is a map from e-mail address to row.
  - bcrypt is a pair of functions (`Server.Hasher`). The class invariant `SoundHasher` states the one thing the model relies on: every hash carries the bcrypt prefix and verifies against the password it was made from.
  - A stored procedure's outcome (rows, or the message of the error it raised), the success of the migration UPDATE and the outcome of `sendMail` are parameters of the handler.
  - Whether the start-up MySQL connection succeeded is the constant `connected`. Whether `EMAIL_USER` and `EMAIL_PASS` were both set is the constant `mailUser`.
  - Every collaborator call a handler makes is appended to the ghost log `calls`. The contracts can therefore say "rejected before any lookup, hash or procedure call".
- **JavaScript semantics** live in module `Js`. They cover truthiness, `x || null`, `trim()` (the full JavaScript white-space set), `toLowerCase()` and `Number(...)` on integers. An absent or null string field is the empty string.
- **The asynchronous client calls** are split in two. A request method returns the body it would post, and a reply method (`OnTransferReply`, `OnReceiptReply`, `OnRegisterReply`) applies the `next`/`error` handler followed by `finalize`.
- **Cross-module lemmas** check the client against the server:
  - `RegistrationForm.PayloadPassesServer`: every registration request the form sends passes `/register`'s checks, and its address is already the key `/login` looks up.
  - `TransferForm.ValidFormPassesServer`: a transfer the form accepts passes `/transaction`'s checks when the beneficiary's name is filled in.
  - `TransferForm.FormSkipsBeneficiaryName`: the form never checks that name, so a request it accepts can still be rejected by the server with the "missing data" message.
- **The server's `/register` does not normalise the address it stores**, so the model passes it to the procedure as sent (`server.js:378-418`). Only the registration page lower-cases and trims it (`registro.ts:98`).

## Model

| member | source | states |
|---|---|---|
| EmailShape.ValidEmailIsRegex | src/app/registro/registro.ts:64-67 | the computed e-mail check holds exactly when `^[^\s@]+@[^\s@]+\.[^\s@]+$` matches: no white space, exactly one '@' with something before it, and a '.' with a character on each side after it (the same regex as src/app/backend/server.js:378) |
| EmailShape.PayloadKeepsValidEmail | src/app/registro/registro.ts:81-98 | an address the form accepts is sent lower-cased and otherwise unchanged, and still passes the shape check |
| EmailShape.LookupKeyOfPayload | src/app/backend/server.js:68 | the form's `toLowerCase().trim()` equals the server's `trim().toLowerCase()`, and a registered address is already its own lookup key |
| Js.TrimLowerCommute | src/app/registro/registro.ts:98 | trimming and lower-casing commute |
| Server.UpdateRewritesOneRow | src/app/backend/server.js:121 | because `user_id` is unique, `UPDATE users SET password = ? WHERE user_id = ?` rewrites exactly the selected row's password and keeps the table well formed |
| Server.HashAcceptedOnHashedPath | src/app/backend/server.js:85-98 | a credential bcrypt produced is recognised by the `^\$2[aby]\$` test and accepts the password it was made from |
| Server.LegacyLoginAcceptsOnlyStored | src/app/backend/server.js:112-118 | for a stored credential without the bcrypt prefix (null read as empty), `/login` succeeds exactly when the password is the stored text, with the row's `user_id`, `role_id` and `email`; any other password gets 401 and the table is unchanged |
| Server.UserIdOfNumbers | src/app/backend/server.js:159-160 | a numeric `idUser` is accepted as itself unless it is 0, and the decimal text of every integer is accepted as that integer, so the text "0" passes where the number 0 is rejected |
| Server.UserIdOfBlank | src/app/backend/server.js:159-160 | a blank text id is truthy and `Number` reads it as 0, so it is accepted as user 0; the empty text is rejected |
| Server.UserIdOfNonNumeric | src/app/backend/server.js:159-160 | a text id whose trimmed form holds a character that is neither a digit nor a leading sign is NaN and rejected |
| Server.TransferAcceptedIff | src/app/backend/server.js:225-242 | a transfer passes the checks exactly when the origin card is truthy, the beneficiary's name and account are non-empty and the amount is a number above zero |
| Server.TransferArgsOf | src/app/backend/server.js:246-257 | the procedure receives a positive amount, and null for exactly the absent bank, concept and timestamp |
| Server.RegisterAcceptedIff | src/app/backend/server.js:368-396 | a registration passes the checks exactly when name and password are present, the address has the right shape and the password has at least six characters |
| Server.RegisteredKeepsRow | src/app/backend/server.js:441-463 | nesting the flat `*_nomina`, `*_credito` and `*_digital` columns into `cards` loses no column and keeps each card's numbers under its own kind |
| Server.ContainsIff | src/app/backend/server.js:469-480 | the `includes` test holds exactly when the marker occurs at some position, so a procedure error without "ya está registrado" is not taken for a duplicate and gets 500 |
| Server.ContainsInfix | src/app/backend/server.js:469 | an error message containing "ya está registrado" anywhere is recognised as a duplicate address |
| Server.Backend.constructor | src/app/backend/server.js:38-50 | the mail transporter exists exactly when `EMAIL_USER` and `EMAIL_PASS` are both set, and sends from `EMAIL_USER` |
| Server.Backend.Login | src/app/backend/server.js:59-146 | a missing field gives 400 with no lookup; a missing connection gives 500; otherwise exactly one lookup of the normalised address, 500 when that lookup throws, 404 when no row matches, and 401 with the table unchanged on a mismatch on either path; a hashed match gives success and changes nothing; a plain match hashes with 10 rounds and issues one UPDATE of that user's password, and succeeds with the row's `user_id`, `role_id` and `email` whether or not the write succeeded (the table changes only when it did) |
| Server.Backend.Authenticate | src/app/backend/server.js:84-140 | for the row found, a bcrypt-prefixed value (null read as empty) is checked with `bcrypt.compare` and anything else by exact equality; a mismatch gives 401 with no further call; a legacy match makes exactly one hash with 10 rounds and one UPDATE of that user's password, and the new table holds the hash only if the write succeeded |
| Server.LoginTwiceAfterMigration | src/app/backend/server.js:97-121 | after a legacy login whose migration was written, a second login with the same password takes the hashed path and succeeds with the same user data |
| Server.Backend.DataUser | src/app/backend/server.js:150-203 | an invalid id gives 400 with no procedure call; otherwise one `data_user_by_id` call with the numeric id, 500 when it throws, 404 on no rows, and else only `user_id`, `name` and `email` of the first row; the table is unchanged |
| Server.Backend.Transaction | src/app/backend/server.js:206-290 | invalid input gives 400 with the first failing check's message and no procedure call; otherwise one `sp_hacer_transferencia` call with the checked arguments, 500 with the error as `details` when it throws, 500 on no rows, and else success with the first row unchanged |
| Server.Backend.SendReceipt | src/app/backend/server.js:296-340 | without a transporter it gives 500 before looking at the input; a missing `to_email`, `subject` or `htmlBody` gives 400 with no send; otherwise exactly one mail from `"MazeBank" <EMAIL_USER>` to the given address, success when delivered and 500 with the reason when not |
| Server.Backend.Register | src/app/backend/server.js:345-482 | the three checks in order, each failure giving 400 before hashing or calling the procedure; otherwise the password is hashed with 10 rounds and the procedure receives the hash (never the password), the address as sent and null for an empty phone or address; an error mentioning "ya está registrado" gives 409, any other error or no rows gives 500, and a row gives success with the nested cards |
| TransferForm.StripFractionIsRegex | src/app/transferir/transferir.component.ts:111 | `replace(/\.\d+Z$/, '')` removes exactly the match when there is one and nothing otherwise |
| TransferForm.ReplaceFirstTAt | src/app/transferir/transferir.component.ts:110 | `replace('T', ' ')` changes only the first 'T' |
| TransferForm.ReplaceFirstTAbsent | src/app/transferir/transferir.component.ts:110 | a string without a 'T' comes back from `replace('T', ' ')` unchanged |
| TransferForm.FormatIsoInstant | src/app/transferir/transferir.component.ts:108-112 | a 24-character `toISOString()` value becomes the 19-character MySQL `YYYY-MM-DD HH:mm:ss` of the same date and time |
| TransferForm.PreviewFee | src/app/transferir/transferir.component.ts:84-92 | the fee is 5 exactly when the amount shown is non-zero (negative amounts included) and 0 otherwise, and the total is the amount plus 5 for a non-null, non-zero amount and 0 for a null or zero one |
| TransferForm.PreviewOfValidForm | src/app/transferir/transferir.component.ts:84-92 | for a form that passes validation the preview total is the amount plus the fee of 5 |
| TransferForm.Transferir.constructor | src/app/transferir/transferir.component.ts:35-61 | the page starts idle, with no messages, an empty form and no result |
| TransferForm.Transferir.ValidateTransferData | src/app/transferir/transferir.component.ts:160-174 | accepts exactly a truthy origin card, a non-empty beneficiary account and a positive amount; sets the first failing check's message; does not look at the beneficiary's name |
| TransferForm.Transferir.Transferir | src/app/transferir/transferir.component.ts:114-129 | an invalid form sends nothing and leaves `cargando` and `successMsg` alone; a valid one raises `cargando`, clears both messages and sends the fields with `concept` defaulted to "Transferencia" and the formatted timestamp |
| TransferForm.PayloadDefaultsConcept | src/app/transferir/transferir.component.ts:121-129 | for every request the page sends that the server accepts, the procedure receives a concept, never the null the server substitutes for an empty one; with a `toISOString()` clock reading it receives that instant's `YYYY-MM-DD HH:mm:ss`, never null |
| TransferForm.ValidFormPassesServer | src/app/transferir/transferir.component.ts:121-129 | a request from an accepted form passes the server's `/transaction` checks whenever the beneficiary's name is filled in |
| TransferForm.FormSkipsBeneficiaryName | src/app/transferir/transferir.component.ts:160-174 | every form the page accepts with the beneficiary name left empty produces a request the server rejects with its "missing data" message (with ValidFormPassesServer: the server accepts such a request exactly when the name is filled in) |
| TransferForm.Transferir.OnTransferReply | src/app/transferir/transferir.component.ts:133-157 | a `success` reply stores the result, sets the success message, marks the transfer done and sends the receipt e-mail when there is a result and an address; any other reply only sets the error message; `cargando` ends false |
| TransferForm.Transferir.Receipt | src/app/transferir/transferir.component.ts:210-211 | there is a receipt exactly when there is a result, and it shows the result's charge id and amount |
| TransferForm.Transferir.EnviarComprobantePorEmail | src/app/transferir/transferir.component.ts:325-339 | nothing is sent without a result or an address; otherwise the receipt goes to the user's address with the subject "Comprobante de tu Transferencia #" and the charge id, and `enviandoEmail` is raised |
| TransferForm.Transferir.OnReceiptReply | src/app/transferir/transferir.component.ts:341-355 | delivery appends to `successMsg` and failure to `errorMsg`; the result and the done flag are untouched, and `enviandoEmail` ends false |
| TransferForm.Transferir.ReiniciarTransferencia | src/app/transferir/transferir.component.ts:177-188 | clears the result, the done flag, both messages and five form fields; the origin card, the timestamp field and the session are left alone |
| TransferForm.Transferir.AbrirComprobante | src/app/transferir/transferir.component.ts:191-207 | with no result it sets "No hay comprobante disponible." and shows nothing; with a blocked pop-up it sets the pop-up message; otherwise it shows the receipt |
| RegistrationForm.Registro.constructor | src/app/registro/registro.ts:38-55 | the page starts idle, with no messages, an empty form and no result |
| RegistrationForm.FormAcceptedIff | src/app/registro/registro.ts:76-94 | the form's checks accept exactly a present name, a well-formed address, a password of six characters or more and a matching confirmation |
| RegistrationForm.Registro.RegistrarUsuario | src/app/registro/registro.ts:70-108 | resets both messages and the result first; a failing check sets the first failing check's message, sends nothing and leaves `cargando` alone; otherwise `cargando` is raised and the normalised request is sent |
| RegistrationForm.PayloadOptionalFields | src/app/registro/registro.ts:96-102 | an empty phone or address is sent as null and anything else as typed, and the server passes them on to the procedure the same way |
| RegistrationForm.PayloadPassesServer | src/app/registro/registro.ts:96-102 | every request the form sends passes the server's `/register` checks, and its address is already the key `/login` looks up |
| RegistrationForm.Registro.OnRegisterReply | src/app/registro/registro.ts:109-148 | a success with data stores the result, shows the panel, sets the success message and clears the form; any other reply only sets the error message; `cargando` ends false |
| RegistrationForm.ServerErrorsRecognised | src/app/registro/registro.ts:138-146 | a 400 for rejected input shows the reason `/register` gave, and the default text only when a 400 carries no message; a 409 shows the same duplicate-address text the server sends; a 500 shows the server-error text; none of these reads as a connection failure, and every other status does |
| RegistrationForm.Registro.LimpiarFormulario | src/app/registro/registro.ts:152-159 | clears exactly the six form fields |
| RegistrationForm.Registro.CerrarExito | src/app/registro/registro.ts:162-165 | hides the success panel, drops the result and changes nothing else |
| RegistrationForm.ChunksCoverInput | src/app/registro/registro.ts:174 | the chunks of `match(/.{1,4}/g)`, put back together, are the input without its line terminators |
| RegistrationForm.ChunksAreBlocksOfFour | src/app/registro/registro.ts:174 | without line terminators the chunks are the consecutive 4-character blocks of the input, and only the last may be shorter |
| RegistrationForm.FormatCardRoundTrip | src/app/registro/registro.ts:173-175 | removing the separating spaces from a formatted card number gives the number back, and the empty string is returned as it is |

## Left out

- The MySQL connection, the Express wiring, CORS and `app.listen` are I/O plumbing. A failed start-up connection is the constant `connected`, and the exception it causes is the fixed message `NoConnectionError`.
- The stored procedures `sp_hacer_transferencia`, `sp_registrar_cliente_completo` and `data_user_by_id` are not part of this model. Their outcome is a parameter. The fee and balance arithmetic, insufficient funds and the atomic creation of three cards happen inside them and are not attributed to the server. The users table is not updated by `/register` for the same reason, so a register-then-login round trip is not stated.
- The mysql2 driver answering a `CALL` with something other than an array (`Array.isArray(resultSets)` false) is not modelled; a procedure's outcome is always rows or an error.
- bcrypt is abstract. Its random salt is a parameter, and a thrown `bcrypt.hash` or `bcrypt.compare` is not modelled.
- Server.Backend.Login: the users map is keyed with exact string equality, not MySQL's case-insensitive collation, and a second row with the same address cannot exist.
- nodemailer's transport configuration is not modelled; only the mail handed to `sendMail` and its outcome are.
- All `console` logging is observability only.
- `Number(...)` is modelled on integers only: fractions, exponents, hexadecimal (`0x`), binary (`0b`) and octal (`0o`) literals and `Infinity` read as NaN, so `/dataUser` rejects an id such as "0b1" that the source would look up as user 1; amounts are integers (no IEEE floating point).
- `toLowerCase()` folds only the ASCII letters.
- String lengths (the six-character password minimum) count characters, not UTF-16 code units.
- Asynchronous execution, rxjs `finalize`, the `setTimeout` redirect to the login page, `ChangeDetectorRef` and router navigation (`irAlMenu`, `irAlLogin`) are left out. Each reply handler is one atomic step.
- `ngOnInit` of the transfer page, which reads the session from `localStorage`, is not modelled; `userId` and `email` are plain fields.
- TransferForm.Transferir.Receipt: the HTML template, `money()`, `fmtDate()` and the footer's year are presentation, so the receipt is the list of values it shows. `window.open` and `document.write` are browser APIs, and the pop-up outcome is a parameter.
- The route guards, the login, main menu and history pages, and the empty components are not part of this model.
