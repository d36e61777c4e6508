/** The bank's REST backend (`server.js`): the handlers of `/login`,
    `/dataUser`, `/transaction`, `/api/enviar-comprobante` and `/register`.
    The MySQL connection, bcrypt and the mail transport are collaborators: the
    users table is a map, bcrypt a pair of abstract functions, the stored
    procedures and `sendMail` are outcomes passed in by the caller, and every
    call made to a collaborator is recorded in a ghost log. */
module Server {
  import opened Js
  import opened EmailShape

  /** `SALT_ROUNDS`, the bcrypt cost factor used for every new hash. */
  const SaltRounds: nat := 10

  // Response messages, as the handlers send them.
  const MsgLoginMissing := "Todos los campos son obligatorios."
  const MsgUnknownUser := "Usuario no registrado."
  const MsgBadCredentials := "Credenciales inválidas."
  const MsgLoginHashed := "Login exitoso"
  const MsgLoginMigrated := "Login exitoso (migrado a hash)"
  const MsgLoginNotMigrated := "Login exitoso (no se pudo migrar el hash, revisar logs)"
  const MsgLoginServer := "Error del servidor en login."
  const MsgBadUserId := "idUser inválido."
  const MsgUserNotFound := "Usuario no encontrado."
  const MsgDataUserServer := "Error del servidor en dataUser."
  const MsgTransferMissing := "Faltan datos obligatorios: origin_card_id, beneficiary_name, beneficiary_account_ref, amount."
  const MsgTransferAmount := "El monto debe ser un número mayor a 0."
  const MsgTransferNoRows := "No se devolvieron datos del procedimiento."
  const MsgTransferDone := "Transferencia realizada exitosamente."
  const MsgTransferServer := "Error del servidor en transaction."
  const MsgMailUnavailable := "Error de configuración del servidor: El servicio de email no está disponible."
  const MsgMailMissing := "Faltan datos para el envío del correo."
  const MsgMailSent := "Correo enviado exitosamente"
  const MsgMailFailed := "Error al enviar el correo."
  const MsgRegisterMissing := "Los campos name, email y password son obligatorios."
  const MsgRegisterEmail := "El formato del email no es válido."
  const MsgRegisterShortPassword := "La contraseña debe tener al menos 6 caracteres."
  const MsgRegisterNoRows := "No se pudieron crear el usuario y las tarjetas."
  const MsgRegistered := "Usuario registrado exitosamente con 3 tarjetas."
  const MsgDuplicateEmail := "El email ya está registrado en el sistema."
  const MsgRegisterServer := "Error del servidor al registrar usuario."
  /** What the registration procedure's error says for a taken address. */
  const DuplicateMarker := "ya está registrado"
  /** The error thrown by `db.query` while the start-up connection has not
      been made (`db` is still undefined). */
  const NoConnectionError := "Cannot read properties of undefined (reading 'query')"

  // ---------------------------------------------------------------------
  // Collaborators
  // ---------------------------------------------------------------------

  /** A row of the `users` table, as `/login` selects it. */
  datatype UserRow = UserRow(userId: int, roleId: int, email: string, password: Option<string>)

  /** bcrypt: `hash(password, salt)` and `verify(password, stored)`
      (`bcrypt.compare`). The salt is bcrypt's random choice. */
  datatype Hasher = Hasher(hash: (string, nat) -> string, verify: (string, string) -> bool)

  /** The test `/^\$2[aby]\$/` on a stored credential. */
  predicate LooksHashed(stored: string) {
    && 4 <= |stored|
    && stored[0] == '$' && stored[1] == '2'
    && (stored[2] == 'a' || stored[2] == 'b' || stored[2] == 'y')
    && stored[3] == '$'
  }

  /** What the model assumes of bcrypt: every hash carries the bcrypt prefix
      and verifies against the password it was made from. */
  ghost predicate SoundHasher(h: Hasher) {
    forall p: string, salt: nat :: LooksHashed(h.hash(p, salt)) && h.verify(p, h.hash(p, salt))
  }

  /** What a stored procedure's CALL gives back: the rows of its first result
      set, or the message of the error it raised. */
  datatype SpResult<T> = Rows(rows: seq<T>) | Threw(message: string)

  /** What `transporter.sendMail` does with a message. */
  datatype Delivery = Delivered | Rejected(reason: string)

  datatype Mail = Mail(from: string, to: string, subject: string, html: string)

  /** One call made to a collaborator. */
  datatype Call =
    | SelectUser(email: string)
    | HashPassword(password: string, rounds: nat)
    | UpdatePassword(userId: int, hash: string)
    | CallDataUserById(id: int)
    | CallTransfer(transfer: TransferArgs)
    | CallRegister(registration: RegisterArgs)
    | SendMail(mail: Mail)

  /** A JSON response: `{status: 'success', message, data}` with HTTP 200, or
      `{status: 'error', message, details?}` with `code`. An empty success
      message stands for none. */
  datatype Response<T> = Ok(message: string, data: T) | Fail(code: nat, message: string, details: Option<string>)

  // ---------------------------------------------------------------------
  // The users table
  // ---------------------------------------------------------------------

  /** Every row is filed under its own email and no two rows share a
      `user_id`. */
  ghost predicate UsersWellFormed(users: map<string, UserRow>) {
    && (forall e | e in users :: users[e].email == e)
    && (forall e1, e2 | e1 in users && e2 in users && e1 != e2 :: users[e1].userId != users[e2].userId)
  }

  /** `UPDATE users SET password = ? WHERE user_id = ?`. */
  function SetPasswordWhere(users: map<string, UserRow>, userId: int, hash: string): (r: map<string, UserRow>)
    ensures r.Keys == users.Keys
  {
    map e | e in users :: if users[e].userId == userId then users[e].(password := Some(hash)) else users[e]
  }

  /** Since `user_id` is unique, the UPDATE keyed by the selected row's id
      rewrites that row's password and no other row, and the table stays well
      formed. */
  lemma UpdateRewritesOneRow(users: map<string, UserRow>, key: string, hash: string)
    requires UsersWellFormed(users) && key in users
    ensures SetPasswordWhere(users, users[key].userId, hash) == users[key := users[key].(password := Some(hash))]
    ensures UsersWellFormed(users[key := users[key].(password := Some(hash))])
  {
    var r := SetPasswordWhere(users, users[key].userId, hash);
    var u := users[key := users[key].(password := Some(hash))];
    assert r.Keys == u.Keys;
    forall e | e in r ensures r[e] == u[e] {
      if e != key {
        assert users[e].userId != users[key].userId;
      }
    }
  }

  // ---------------------------------------------------------------------
  // /login
  // ---------------------------------------------------------------------

  /** The path `/login` takes for a stored credential, and whether the
      password passed it. */
  datatype CredentialCheck = HashedPath(ok: bool) | PlainPath(ok: bool)

  /** A stored value with the bcrypt prefix is checked with `bcrypt.compare`,
      anything else by exact equality with the password. */
  function CheckCredential(h: Hasher, stored: string, password: string): CredentialCheck {
    if LooksHashed(stored) then HashedPath(h.verify(password, stored)) else PlainPath(password == stored)
  }

  /** A credential that bcrypt produced is checked on the hashed path and
      accepts the password it was made from: a password migrated at one login
      (or hashed at registration) passes the next one. */
  lemma HashAcceptedOnHashedPath(h: Hasher, password: string, salt: nat)
    requires SoundHasher(h)
    ensures CheckCredential(h, h.hash(password, salt), password) == HashedPath(true)
  {
  }

  datatype LoginData = LoginData(userId: int, roleId: int, email: string)

  /** The calls `/login` makes after the lookup: a hash and one UPDATE of
      that user's password after a legacy match, none otherwise. */
  function MigrationCalls(h: Hasher, row: UserRow, password: string, salt: nat): seq<Call> {
    if CheckCredential(h, row.password.GetOr(""), password) == PlainPath(true) then
      [HashPassword(password, SaltRounds), UpdatePassword(row.userId, h.hash(password, salt))]
    else []
  }

  /** The answer of `/login` for the row filed under `key`, and the table
      after it (`users'`). */
  predicate LoginAnswer(h: Hasher, users: map<string, UserRow>, key: string, password: string, salt: nat,
                        updateOk: bool, resp: Response<LoginData>, users': map<string, UserRow>)
    requires key in users
  {
    var row := users[key];
    var data := LoginData(row.userId, row.roleId, row.email);
    match CheckCredential(h, row.password.GetOr(""), password)
    // a mismatch on either path leaves the stored credential alone
    case HashedPath(false) => resp == Fail(401, MsgBadCredentials, None) && users' == users
    case PlainPath(false) => resp == Fail(401, MsgBadCredentials, None) && users' == users
    case HashedPath(true) => resp == Ok(MsgLoginHashed, data) && users' == users
    // a legacy match rewrites that row's password with its hash; when the
    // write fails the login still succeeds with the same data
    case PlainPath(true) =>
      && resp == Ok(if updateOk then MsgLoginMigrated else MsgLoginNotMigrated, data)
      && users' == if updateOk then users[key := row.(password := Some(h.hash(password, salt)))] else users
  }

  /** For a stored credential without the bcrypt prefix (a null one reads as
      empty), `/login` succeeds exactly when the password is the stored text
      itself; any other password gets 401 and leaves the table as it was. */
  lemma LegacyLoginAcceptsOnlyStored(h: Hasher, users: map<string, UserRow>, key: string, password: string, salt: nat,
                                     updateOk: bool, resp: Response<LoginData>, users': map<string, UserRow>)
    requires key in users && !LooksHashed(users[key].password.GetOr(""))
    requires LoginAnswer(h, users, key, password, salt, updateOk, resp, users')
    ensures resp.Ok? <==> password == users[key].password.GetOr("")
    ensures !resp.Ok? ==> resp == Fail(401, MsgBadCredentials, None) && users' == users
    ensures resp.Ok? ==> resp.data == LoginData(users[key].userId, users[key].roleId, users[key].email)
  {
  }

  // ---------------------------------------------------------------------
  // /dataUser
  // ---------------------------------------------------------------------

  /** A row of `data_user_by_id`; the columns beyond the first three are not
      known to the server. */
  datatype ProfileRow = ProfileRow(userId: int, name: string, email: string, otherColumns: map<string, string>)

  datatype Profile = Profile(userId: int, name: string, email: string)

  /** The id `/dataUser` accepts: truthy and numeric. */
  function UserIdOf(idUser: JsValue): Option<int> {
    if !Truthy(idUser) then None else ToNumber(idUser)
  }

  /** A numeric id is accepted unless it is 0, and the decimal text of any
      integer is accepted as that integer: the text "0" passes where the
      number 0 does not. */
  lemma UserIdOfNumbers(n: int)
    ensures UserIdOf(Num(n)) == (if n != 0 then Some(n) else None)
    ensures UserIdOf(Text(IntToString(n))) == Some(n)
  {
    NumberOfString(n);
  }

  /** Text of white space only is truthy and reads as 0; the empty text is
      falsy. */
  lemma UserIdOfBlank()
    ensures UserIdOf(Text(" ")) == Some(0)
    ensures UserIdOf(Text("")) == None
  {
    assert Trim(" ") == "" by {
      assert TrimStart(" ") == TrimStart(" "[1..]);
    }
  }

  /** Text whose trimmed form holds a character that is neither a digit nor
      a leading sign is NaN, and rejected. */
  lemma UserIdOfNonNumeric(s: string, i: nat)
    requires i < |Trim(s)| && !IsDigit(Trim(s)[i])
    requires i == 0 ==> Trim(s)[0] != '+' && Trim(s)[0] != '-'
    ensures UserIdOf(Text(s)) == None
  {
    var t := Trim(s);
    if i == 0 {
      assert !AllDigits(t);
    } else {
      assert t[1..][i - 1] == t[i];
      assert !AllDigits(t[1..]) && !AllDigits(t);
    }
  }

  // ---------------------------------------------------------------------
  // /transaction
  // ---------------------------------------------------------------------

  datatype TransferRequest = TransferRequest(
    originCardId: JsValue,
    beneficiaryName: string,
    beneficiaryAccountRef: string,
    beneficiaryBank: string,
    amount: JsValue,
    concept: string,
    transactionAt: string)

  /** The arguments of `CALL sp_hacer_transferencia(?, ?, ?, ?, ?, ?, ?)`. */
  datatype TransferArgs = TransferArgs(
    originCardId: JsValue,
    beneficiaryName: string,
    beneficiaryAccountRef: string,
    beneficiaryBank: Option<string>,
    amount: int,
    concept: Option<string>,
    transactionAt: Option<string>)

  /** A row of `sp_hacer_transferencia`, passed to the client unchanged. */
  datatype TransferRow = TransferRow(chargeId: int, amount: int, fee: int, debitedTotal: int, newBalance: int, transactionAt: string)

  /** The two checks of `/transaction`, in order: required fields, then a
      numeric amount above zero. */
  function TransferInputError(req: TransferRequest): Option<string> {
    if !Truthy(req.originCardId) || req.beneficiaryName == "" || req.beneficiaryAccountRef == "" || !Truthy(req.amount) then
      Some(MsgTransferMissing)
    else if ToNumber(req.amount).None? || ToNumber(req.amount).value <= 0 then
      Some(MsgTransferAmount)
    else
      None
  }

  /** A transfer request passes the checks exactly when the origin card is
      given, the beneficiary's name and account are non-empty and the amount
      is a number above zero; a missing amount, zero, a negative amount and a
      non-numeric one are all rejected. */
  lemma TransferAcceptedIff(req: TransferRequest)
    ensures TransferInputError(req) == None <==>
      && Truthy(req.originCardId)
      && req.beneficiaryName != "" && req.beneficiaryAccountRef != ""
      && ToNumber(req.amount).Some? && ToNumber(req.amount).value > 0
  {
    if req.amount == Text("") {
      assert Trim("") == "";
    }
  }

  /** The arguments the procedure receives: the fields as sent, the amount as
      a number and null for an absent bank, concept or timestamp. */
  function TransferArgsOf(req: TransferRequest): (args: TransferArgs)
    requires TransferInputError(req) == None
    ensures args.amount > 0
    ensures args.beneficiaryBank.None? <==> req.beneficiaryBank == ""
    ensures args.concept.None? <==> req.concept == ""
    ensures args.transactionAt.None? <==> req.transactionAt == ""
  {
    TransferArgs(
      req.originCardId, req.beneficiaryName, req.beneficiaryAccountRef,
      OrNull(req.beneficiaryBank), ToNumber(req.amount).value,
      OrNull(req.concept), OrNull(req.transactionAt))
  }

  // ---------------------------------------------------------------------
  // /api/enviar-comprobante
  // ---------------------------------------------------------------------

  /** The sender line, `"MazeBank" <EMAIL_USER>`. */
  function SenderOf(user: string): string {
    "\"MazeBank\" <" + user + ">"
  }

  // ---------------------------------------------------------------------
  // /register
  // ---------------------------------------------------------------------

  datatype RegisterRequest = RegisterRequest(name: string, email: string, phone: string, address: string, password: string)

  /** The arguments of `CALL sp_registrar_cliente_completo(?, ?, ?, ?, ?)`. */
  datatype RegisterArgs = RegisterArgs(name: string, email: string, phone: Option<string>, address: Option<string>, passwordHash: string)

  /** The flat row `sp_registrar_cliente_completo` returns. */
  datatype RegistrationRow = RegistrationRow(
    userId: int, userName: string, userEmail: string,
    cardNumberNomina: string, accountNumberNomina: string,
    cardNumberCredito: string, accountNumberCredito: string,
    cardNumberDigital: string, accountNumberDigital: string)

  datatype Card = Card(cardNumber: string, accountNumber: string)

  datatype Cards = Cards(nomina: Card, credito: Card, digital: Card)

  /** The `data` of a successful registration. */
  datatype Registered = Registered(userId: int, userName: string, userEmail: string, cards: Cards)

  /** The three checks of `/register`, in order: required fields, e-mail
      shape, password length. The address is checked as sent: the server does
      not normalise it. */
  function RegisterInputError(name: string, email: string, password: string): Option<string> {
    if name == "" || email == "" || password == "" then Some(MsgRegisterMissing)
    else if !ValidEmail(email) then Some(MsgRegisterEmail)
    else if |password| < 6 then Some(MsgRegisterShortPassword)
    else None
  }

  lemma RegisterAcceptedIff(name: string, email: string, password: string)
    ensures RegisterInputError(name, email, password) == None <==>
      name != "" && ValidEmail(email) && 6 <= |password|
  {
  }

  /** Nests the flat `*_nomina`, `*_credito` and `*_digital` columns into
      `cards`. */
  function RegisteredOf(row: RegistrationRow): Registered {
    Registered(row.userId, row.userName, row.userEmail, Cards(
      Card(row.cardNumberNomina, row.accountNumberNomina),
      Card(row.cardNumberCredito, row.accountNumberCredito),
      Card(row.cardNumberDigital, row.accountNumberDigital)))
  }

  /** The flat row a nested result came from. */
  function RowOf(r: Registered): RegistrationRow {
    RegistrationRow(r.userId, r.userName, r.userEmail,
      r.cards.nomina.cardNumber, r.cards.nomina.accountNumber,
      r.cards.credito.cardNumber, r.cards.credito.accountNumber,
      r.cards.digital.cardNumber, r.cards.digital.accountNumber)
  }

  /** The nesting loses no column and puts each card's numbers under its own
      kind: the flat row can be read back from the response. */
  lemma RegisteredKeepsRow(row: RegistrationRow)
    ensures RowOf(RegisteredOf(row)) == row
  {
  }

  /** `haystack.includes(needle)`. */
  predicate Contains(haystack: string, needle: string) {
    if |haystack| < |needle| then false
    else haystack[..|needle|] == needle || Contains(haystack[1..], needle)
  }

  /** `needle` occurs in `haystack` starting at index `i`. */
  predicate OccursAt(haystack: string, needle: string, i: int) {
    0 <= i && i + |needle| <= |haystack| && haystack[i..i + |needle|] == needle
  }

  /** `Contains` holds exactly when the needle occurs at some position: a
      message with the marker is recognised, and one without it is not. */
  lemma {:induction false} ContainsIff(haystack: string, needle: string)
    ensures Contains(haystack, needle) <==> exists i :: OccursAt(haystack, needle, i)
    decreases |haystack|
  {
    if |haystack| < |needle| {
      assert forall i :: !OccursAt(haystack, needle, i);
    } else if haystack[..|needle|] == needle {
      assert OccursAt(haystack, needle, 0);
    } else {
      var tail := haystack[1..];
      ContainsIff(tail, needle);
      if Contains(haystack, needle) {
        var i :| OccursAt(tail, needle, i);
        assert tail[i..i + |needle|] == haystack[i + 1..i + 1 + |needle|];
        assert OccursAt(haystack, needle, i + 1);
      }
      if exists i :: OccursAt(haystack, needle, i) {
        var i :| OccursAt(haystack, needle, i);
        assert i != 0;
        assert tail[i - 1..i - 1 + |needle|] == haystack[i..i + |needle|];
        assert OccursAt(tail, needle, i - 1);
      }
    }
  }

  /** Any error whose message contains the marker, wherever it sits, is
      recognised as a duplicate address. */
  lemma {:induction false} ContainsInfix(before: string, needle: string, after: string)
    ensures Contains(before + needle + after, needle)
  {
    var s := before + needle + after;
    if before == [] {
      assert s[..|needle|] == needle;
    } else {
      assert s[1..] == before[1..] + needle + after;
      ContainsInfix(before[1..], needle, after);
    }
  }

  // ---------------------------------------------------------------------
  // The server
  // ---------------------------------------------------------------------

  class Backend {
    /** The bcrypt implementation. */
    const hasher: Hasher
    /** Whether the start-up MySQL connection succeeded (`db` was set). */
    const connected: bool
    /** The mail transporter: the configured sender when `EMAIL_USER` and
        `EMAIL_PASS` were both set at start-up, none otherwise. */
    const mailUser: Option<string>
    /** The `users` table, by email. */
    var users: map<string, UserRow>
    /** Every call made to a collaborator, oldest first. */
    ghost var calls: seq<Call>

    ghost predicate Valid()
      reads this
    {
      SoundHasher(hasher) && UsersWellFormed(users)
    }

    constructor (hasher: Hasher, connected: bool, emailUser: string, emailPass: string, users: map<string, UserRow>)
      requires SoundHasher(hasher) && UsersWellFormed(users)
      ensures Valid()
      ensures this.hasher == hasher && this.connected == connected && this.users == users && calls == []
      ensures mailUser == if emailUser != "" && emailPass != "" then Some(emailUser) else None
    {
      this.hasher := hasher;
      this.connected := connected;
      this.mailUser := if emailUser != "" && emailPass != "" then Some(emailUser) else None;
      this.users := users;
      calls := [];
    }

    /** `POST /login`. `lookupOk` says whether the SELECT on the live
        connection succeeded; when it throws, the catch answers 500. */
    method Login(email: string, password: string, salt: nat, lookupOk: bool, updateOk: bool) returns (resp: Response<LoginData>)
      requires Valid()
      modifies this
      ensures Valid()
      // a missing field is rejected before any lookup
      ensures email == "" || password == "" ==>
        resp == Fail(400, MsgLoginMissing, None) && users == old(users) && calls == old(calls)
      ensures email != "" && password != "" && !connected ==>
        resp == Fail(500, MsgLoginServer, None) && users == old(users) && calls == old(calls)
      // otherwise the normalised address is looked up
      ensures email != "" && password != "" && connected && !lookupOk ==>
        resp == Fail(500, MsgLoginServer, None) && users == old(users) &&
        calls == old(calls) + [SelectUser(LookupKey(email))]
      ensures email != "" && password != "" && connected && lookupOk && LookupKey(email) !in old(users) ==>
        resp == Fail(404, MsgUnknownUser, None) && users == old(users) &&
        calls == old(calls) + [SelectUser(LookupKey(email))]
      ensures email != "" && password != "" && connected && lookupOk && LookupKey(email) in old(users) ==>
        && calls == old(calls) + [SelectUser(LookupKey(email))] + MigrationCalls(hasher, old(users)[LookupKey(email)], password, salt)
        && LoginAnswer(hasher, old(users), LookupKey(email), password, salt, updateOk, resp, users)
    {
      if email == "" || password == "" {
        return Fail(400, MsgLoginMissing, None);
      }
      var key := LookupKey(email);
      if !connected {
        return Fail(500, MsgLoginServer, None);
      }
      calls := calls + [SelectUser(key)];
      if !lookupOk {
        return Fail(500, MsgLoginServer, None);
      }
      if key !in users {
        return Fail(404, MsgUnknownUser, None);
      }
      resp := Authenticate(key, password, salt, updateOk);
    }

    /** The credential check of `/login` for the row filed under `key`, and
        the migration of a legacy password. */
    method Authenticate(key: string, password: string, salt: nat, updateOk: bool) returns (resp: Response<LoginData>)
      requires Valid() && key in users
      modifies this
      ensures Valid()
      ensures calls == old(calls) + MigrationCalls(hasher, old(users)[key], password, salt)
      ensures LoginAnswer(hasher, old(users), key, password, salt, updateOk, resp, users)
    {
      var row := users[key];
      var data := LoginData(row.userId, row.roleId, row.email);
      var stored := row.password.GetOr("");
      var check := CheckCredential(hasher, stored, password);
      if !check.ok {
        return Fail(401, MsgBadCredentials, None);
      }
      if check.HashedPath? {
        return Ok(MsgLoginHashed, data);
      }
      var newHash := hasher.hash(password, salt);
      calls := calls + [HashPassword(password, SaltRounds), UpdatePassword(row.userId, newHash)];
      if !updateOk {
        return Ok(MsgLoginNotMigrated, data);
      }
      UpdateRewritesOneRow(users, key, newHash);
      users := SetPasswordWhere(users, row.userId, newHash);
      return Ok(MsgLoginMigrated, data);
    }

    /** `POST /dataUser`. */
    method DataUser(idUser: JsValue, sp: SpResult<ProfileRow>) returns (resp: Response<Profile>)
      requires Valid()
      modifies this
      ensures Valid() && users == old(users)
      ensures UserIdOf(idUser).None? ==> resp == Fail(400, MsgBadUserId, None) && calls == old(calls)
      ensures UserIdOf(idUser).Some? && !connected ==>
        resp == Fail(500, MsgDataUserServer, None) && calls == old(calls)
      ensures UserIdOf(idUser).Some? && connected ==>
        && calls == old(calls) + [CallDataUserById(UserIdOf(idUser).value)]
        && resp == match sp
             case Threw(_) => Fail(500, MsgDataUserServer, None)
             case Rows(rs) =>
               if rs == [] then Fail(404, MsgUserNotFound, None)
               else Ok("", Profile(rs[0].userId, rs[0].name, rs[0].email))
    {
      var id := UserIdOf(idUser);
      if id.None? {
        return Fail(400, MsgBadUserId, None);
      }
      if !connected {
        return Fail(500, MsgDataUserServer, None);
      }
      calls := calls + [CallDataUserById(id.value)];
      match sp {
        case Threw(_) =>
          return Fail(500, MsgDataUserServer, None);
        case Rows(rs) =>
          if rs == [] {
            return Fail(404, MsgUserNotFound, None);
          }
          var user := rs[0];
          return Ok("", Profile(user.userId, user.name, user.email));
      }
    }

    /** `POST /transaction`. */
    method Transaction(req: TransferRequest, sp: SpResult<TransferRow>) returns (resp: Response<TransferRow>)
      requires Valid()
      modifies this
      ensures Valid() && users == old(users)
      // invalid input never reaches the procedure
      ensures TransferInputError(req).Some? ==>
        resp == Fail(400, TransferInputError(req).value, None) && calls == old(calls)
      ensures TransferInputError(req).None? && !connected ==>
        resp == Fail(500, MsgTransferServer, Some(NoConnectionError)) && calls == old(calls)
      ensures TransferInputError(req).None? && connected ==>
        && calls == old(calls) + [CallTransfer(TransferArgsOf(req))]
        && resp == match sp
             case Threw(m) => Fail(500, MsgTransferServer, Some(m))
             case Rows(rs) =>
               if rs == [] then Fail(500, MsgTransferNoRows, None)
               else Ok(MsgTransferDone, rs[0])
    {
      var err := TransferInputError(req);
      if err.Some? {
        return Fail(400, err.value, None);
      }
      if !connected {
        return Fail(500, MsgTransferServer, Some(NoConnectionError));
      }
      calls := calls + [CallTransfer(TransferArgsOf(req))];
      match sp {
        case Threw(m) =>
          return Fail(500, MsgTransferServer, Some(m));
        case Rows(rs) =>
          if rs == [] {
            return Fail(500, MsgTransferNoRows, None);
          }
          return Ok(MsgTransferDone, rs[0]);
      }
    }

    /** `POST /api/enviar-comprobante`. */
    method SendReceipt(toEmail: string, subject: string, htmlBody: string, outcome: Delivery) returns (resp: Response<()>)
      requires Valid()
      modifies this
      ensures Valid() && users == old(users)
      // without a transporter nothing is even validated
      ensures mailUser.None? ==> resp == Fail(500, MsgMailUnavailable, None) && calls == old(calls)
      ensures mailUser.Some? && (toEmail == "" || subject == "" || htmlBody == "") ==>
        resp == Fail(400, MsgMailMissing, None) && calls == old(calls)
      ensures mailUser.Some? && toEmail != "" && subject != "" && htmlBody != "" ==>
        && calls == old(calls) + [SendMail(Mail(SenderOf(mailUser.value), toEmail, subject, htmlBody))]
        && resp == match outcome
             case Delivered => Ok(MsgMailSent, ())
             case Rejected(reason) => Fail(500, MsgMailFailed, Some(reason))
    {
      if mailUser.None? {
        return Fail(500, MsgMailUnavailable, None);
      }
      if toEmail == "" || subject == "" || htmlBody == "" {
        return Fail(400, MsgMailMissing, None);
      }
      calls := calls + [SendMail(Mail(SenderOf(mailUser.value), toEmail, subject, htmlBody))];
      match outcome {
        case Delivered =>
          return Ok(MsgMailSent, ());
        case Rejected(reason) =>
          return Fail(500, MsgMailFailed, Some(reason));
      }
    }

    /** `POST /register`. */
    method Register(req: RegisterRequest, salt: nat, sp: SpResult<RegistrationRow>) returns (resp: Response<Registered>)
      requires Valid()
      modifies this
      ensures Valid() && users == old(users)
      // invalid input is rejected before hashing or calling the procedure
      ensures RegisterInputError(req.name, req.email, req.password).Some? ==>
        resp == Fail(400, RegisterInputError(req.name, req.email, req.password).value, None) &&
        calls == old(calls)
      ensures RegisterInputError(req.name, req.email, req.password).None? && !connected ==>
        resp == Fail(500, MsgRegisterServer, Some(NoConnectionError)) &&
        calls == old(calls) + [HashPassword(req.password, SaltRounds)]
      // the procedure receives the address as sent and the hash, never the password
      ensures RegisterInputError(req.name, req.email, req.password).None? && connected ==>
        var args := RegisterArgs(req.name, req.email, OrNull(req.phone), OrNull(req.address), hasher.hash(req.password, salt));
        && calls == old(calls) + [HashPassword(req.password, SaltRounds), CallRegister(args)]
        && resp == match sp
             case Threw(m) =>
               if Contains(m, DuplicateMarker) then Fail(409, MsgDuplicateEmail, None)
               else Fail(500, MsgRegisterServer, Some(m))
             case Rows(rs) =>
               if rs == [] then Fail(500, MsgRegisterNoRows, None)
               else Ok(MsgRegistered, RegisteredOf(rs[0]))
    {
      var err := RegisterInputError(req.name, req.email, req.password);
      if err.Some? {
        return Fail(400, err.value, None);
      }
      var hashed := hasher.hash(req.password, salt);
      calls := calls + [HashPassword(req.password, SaltRounds)];
      if !connected {
        return Fail(500, MsgRegisterServer, Some(NoConnectionError));
      }
      var args := RegisterArgs(req.name, req.email, OrNull(req.phone), OrNull(req.address), hashed);
      calls := calls + [CallRegister(args)];
      match sp {
        case Threw(m) =>
          if Contains(m, DuplicateMarker) {
            return Fail(409, MsgDuplicateEmail, None);
          }
          return Fail(500, MsgRegisterServer, Some(m));
        case Rows(rs) =>
          if rs == [] {
            return Fail(500, MsgRegisterNoRows, None);
          }
          return Ok(MsgRegistered, RegisteredOf(rs[0]));
      }
    }
  }

  /** A legacy login whose migration was written, followed by a second login
      with the same password: the second takes the hashed path and succeeds
      with the same user data. */
  method LoginTwiceAfterMigration(b: Backend, email: string, password: string, salt1: nat, salt2: nat, updateOk2: bool)
      returns (first: Response<LoginData>, second: Response<LoginData>)
    requires b.Valid() && b.connected && email != "" && password != ""
    requires LookupKey(email) in b.users
    requires !LooksHashed(b.users[LookupKey(email)].password.GetOr(""))
    requires b.users[LookupKey(email)].password.GetOr("") == password
    modifies b
    ensures first.Ok? && first.message == MsgLoginMigrated
    ensures second == Ok(MsgLoginHashed, first.data)
    ensures LookupKey(email) in b.users && b.users[LookupKey(email)].password == Some(b.hasher.hash(password, salt1))
  {
    var key := LookupKey(email);
    var row := b.users[key];
    assert CheckCredential(b.hasher, row.password.GetOr(""), password) == PlainPath(true);
    first := b.Login(email, password, salt1, true, true);
    var migrated := row.(password := Some(b.hasher.hash(password, salt1)));
    assert b.users == old(b.users)[key := migrated];
    assert first == Ok(MsgLoginMigrated, LoginData(row.userId, row.roleId, row.email));
    HashAcceptedOnHashedPath(b.hasher, password, salt1);
    assert key in b.users && b.users[key] == migrated;
    assert CheckCredential(b.hasher, migrated.password.GetOr(""), password) == HashedPath(true);
    second := b.Login(email, password, salt2, true, updateOk2);
  }
}
