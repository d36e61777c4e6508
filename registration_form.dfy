/** The registration page of the client (`registro.ts`): the ordered form
    checks, the request it sends to `/register`, the handling of the reply and
    its error statuses, clearing the form, closing the success panel and the
    grouping of a card number into blocks of four. */
module RegistrationForm {
  import opened Js
  import opened EmailShape
  import Server

  const MsgRequired := "Los campos Nombre, Email y Contraseña son obligatorios."
  const MsgBadEmail := "El formato del email no es válido."
  const MsgShortPassword := "La contraseña debe tener al menos 6 caracteres."
  const MsgPasswordsDiffer := "Las contraseñas no coinciden."
  const MsgRegistered := "Usuario registrado exitosamente."
  const MsgNotRegistered := "No se pudo registrar el usuario."
  const MsgDuplicate := "El email ya está registrado en el sistema."
  const MsgInvalidData := "Datos de registro inválidos."
  const MsgServerError := "Error del servidor. Intenta nuevamente."
  const MsgConnection := "Error al conectar con el servidor."

  // ---------------------------------------------------------------------
  // Checks, request and error messages
  // ---------------------------------------------------------------------

  /** The checks of `registrarUsuario`, in order: required fields, e-mail
      shape, password length, matching confirmation; the message of the first
      that fails. */
  function FormError(name: string, email: string, password: string, confirmPassword: string): Option<string> {
    if name == "" || email == "" || password == "" then Some(MsgRequired)
    else if !ValidEmail(email) then Some(MsgBadEmail)
    else if |password| < 6 then Some(MsgShortPassword)
    else if password != confirmPassword then Some(MsgPasswordsDiffer)
    else None
  }

  /** The body posted to `/register`. */
  datatype RegisterPayload = RegisterPayload(name: string, email: string, phone: Option<string>, address: Option<string>, password: string)

  /** The request: the address lower-cased and trimmed, an empty phone or
      address as null, the name and password as typed. */
  function PayloadOf(name: string, email: string, phone: string, address: string, password: string): RegisterPayload {
    RegisterPayload(name, PayloadEmail(email), OrNull(phone), OrNull(address), password)
  }

  /** The same request as the server reads it (null and "" are both falsy). */
  function AsServerRequest(p: RegisterPayload): Server.RegisterRequest {
    Server.RegisterRequest(p.name, p.email, p.phone.GetOr(""), p.address.GetOr(""), p.password)
  }

  /** The message shown for an HTTP error reply. */
  function ErrorMessageFor(status: int, serverMessage: string): string {
    if status == 409 then MsgDuplicate
    else if status == 400 then (if serverMessage != "" then serverMessage else MsgInvalidData)
    else if status == 500 then MsgServerError
    else MsgConnection
  }

  /** The reply to the request: a 2xx body (`next`) or an HTTP error
      (`error`) with its status and the server's message ("" when absent). */
  datatype RegisterReply =
    | Answered(status: string, message: string, data: Option<Server.Registered>)
    | HttpError(code: int, message: string)

  class Registro {
    var cargando: bool
    var errorMsg: string
    var successMsg: string
    var mostrarExito: bool
    var name: string
    var email: string
    var phone: string
    var address: string
    var password: string
    var confirmPassword: string
    var resultado: Option<Server.Registered>

    constructor ()
      ensures !cargando && errorMsg == "" && successMsg == "" && !mostrarExito
      ensures name == "" && email == "" && phone == "" && address == "" && password == "" && confirmPassword == ""
      ensures resultado.None?
    {
      cargando, errorMsg, successMsg, mostrarExito := false, "", "", false;
      name, email, phone, address, password, confirmPassword := "", "", "", "", "", "";
      resultado := None;
    }

    /** `registrarUsuario` up to the request: reset the messages and the
        result, run the checks, and on success raise the busy flag and send
        the payload. */
    method RegistrarUsuario() returns (sent: Option<RegisterPayload>)
      modifies this`errorMsg, this`successMsg, this`resultado, this`cargando
      ensures successMsg == "" && resultado.None?
      ensures FormError(name, email, password, confirmPassword).Some? ==>
        && sent.None? && cargando == old(cargando)
        && errorMsg == FormError(name, email, password, confirmPassword).value
      ensures FormError(name, email, password, confirmPassword).None? ==>
        && sent == Some(PayloadOf(name, email, phone, address, password))
        && cargando && errorMsg == ""
    {
      errorMsg := "";
      successMsg := "";
      resultado := None;
      var err := FormError(name, email, password, confirmPassword);
      if err.Some? {
        errorMsg := err.value;
        return None;
      }
      cargando := true;
      return Some(PayloadOf(name, email, phone, address, password));
    }

    /** `limpiarFormulario`: the six form fields, and nothing else. */
    method LimpiarFormulario()
      modifies this`name, this`email, this`phone, this`address, this`password, this`confirmPassword
      ensures name == "" && email == "" && phone == "" && address == "" && password == "" && confirmPassword == ""
    {
      name := "";
      email := "";
      phone := "";
      address := "";
      password := "";
      confirmPassword := "";
    }

    /** `cerrarExito`: hides the success panel and drops the result. */
    method CerrarExito()
      modifies this`mostrarExito, this`resultado
      ensures !mostrarExito && resultado.None?
    {
      mostrarExito := false;
      resultado := None;
    }

    /** The reply to the request, then `finalize`. A success with data stores
        the result, shows the panel and clears the form; any other answer only
        sets the error message. */
    method OnRegisterReply(reply: RegisterReply)
      modifies this`errorMsg, this`successMsg, this`resultado, this`mostrarExito, this`cargando,
               this`name, this`email, this`phone, this`address, this`password, this`confirmPassword
      ensures !cargando
      ensures reply.Answered? && reply.status == "success" && reply.data.Some? ==>
        && resultado == reply.data && mostrarExito
        && successMsg == (if reply.message != "" then reply.message else MsgRegistered)
        && errorMsg == old(errorMsg)
        && name == "" && email == "" && phone == "" && address == "" && password == "" && confirmPassword == ""
      ensures !(reply.Answered? && reply.status == "success" && reply.data.Some?) ==>
        && errorMsg == (match reply
                        case Answered(_, m, _) => if m != "" then m else MsgNotRegistered
                        case HttpError(code, m) => ErrorMessageFor(code, m))
        && successMsg == old(successMsg) && resultado == old(resultado) && mostrarExito == old(mostrarExito)
        && name == old(name) && email == old(email) && phone == old(phone)
        && address == old(address) && password == old(password) && confirmPassword == old(confirmPassword)
    {
      match reply {
        case Answered(status, message, data) =>
          if status == "success" && data.Some? {
            resultado := data;
            successMsg := if message != "" then message else MsgRegistered;
            mostrarExito := true;
            LimpiarFormulario();
          } else {
            errorMsg := if message != "" then message else MsgNotRegistered;
          }
        case HttpError(code, message) =>
          errorMsg := ErrorMessageFor(code, message);
      }
      cargando := false;
    }
  }

  // ---------------------------------------------------------------------
  // Properties of the form and its request
  // ---------------------------------------------------------------------

  /** The form's checks accept exactly: name, address and password present,
      the address of the right shape, six characters or more, and the same
      password twice. */
  lemma FormAcceptedIff(name: string, email: string, password: string, confirmPassword: string)
    ensures FormError(name, email, password, confirmPassword).None? <==>
      name != "" && ValidEmail(email) && 6 <= |password| && password == confirmPassword
  {
  }

  /** Every request the form sends passes all of the server's checks, and
      the address it carries is already the key a login looks up. */
  lemma PayloadPassesServer(name: string, email: string, phone: string, address: string,
                            password: string, confirmPassword: string)
    requires FormError(name, email, password, confirmPassword).None?
    ensures var req := AsServerRequest(PayloadOf(name, email, phone, address, password));
      && Server.RegisterInputError(req.name, req.email, req.password).None?
      && LookupKey(req.email) == req.email
  {
    var req := AsServerRequest(PayloadOf(name, email, phone, address, password));
    assert req.name == name && req.email == PayloadEmail(email) && req.password == password;
    assert name != "" && ValidEmail(email) && 6 <= |password|;
    PayloadKeepsValidEmail(email);
    Server.RegisterAcceptedIff(req.name, req.email, req.password);
    LookupKeyOfPayload(email);
  }

  /** The phone and the address reach the stored procedure exactly as the
      form sends them: null when left empty, as typed otherwise. */
  lemma PayloadOptionalFields(name: string, email: string, phone: string, address: string, password: string)
    ensures var p := PayloadOf(name, email, phone, address, password);
      var req := AsServerRequest(p);
      && OrNull(req.phone) == p.phone && OrNull(req.address) == p.address
      && (p.phone.None? <==> phone == "") && (p.address.None? <==> address == "")
  {
  }

  /** What the page shows for each error `/register` can answer: a 400 shows
      the server's own reason for the rejected input (the default text only
      when a 400 carries no message), a 409 the duplicate-address text the
      server sends, a 500 the server-error text, and none of them reads as a
      connection failure; any other status does. */
  lemma ServerErrorsRecognised(name: string, email: string, password: string, code: int, serverMessage: string)
    ensures Server.RegisterInputError(name, email, password).Some? ==>
      var reason := Server.RegisterInputError(name, email, password).value;
      ErrorMessageFor(400, reason) == reason && reason != MsgConnection
    ensures ErrorMessageFor(400, "") == MsgInvalidData
    ensures ErrorMessageFor(409, serverMessage) == MsgDuplicate == Server.MsgDuplicateEmail
    ensures ErrorMessageFor(500, serverMessage) == MsgServerError != MsgConnection
    ensures code != 400 && code != 409 && code != 500 ==> ErrorMessageFor(code, serverMessage) == MsgConnection
  {
  }

  // ---------------------------------------------------------------------
  // Card numbers
  // ---------------------------------------------------------------------

  /** The characters `.` does not match in a JavaScript regular expression. */
  predicate IsLineTerminator(c: char) {
    c == '\n' || c == '\r' || c == '\U{2028}' || c == '\U{2029}'
  }

  predicate NoLineTerminator(s: string) {
    forall i | 0 <= i < |s| :: !IsLineTerminator(s[i])
  }

  /** How many characters `.{1,max}` takes from the front of `s`. */
  function RunLength(s: string, max: nat): (n: nat)
    ensures n <= max && n <= |s|
    ensures forall i | 0 <= i < n :: !IsLineTerminator(s[i])
    ensures n < max && n < |s| ==> IsLineTerminator(s[n])
  {
    if s == [] || max == 0 || IsLineTerminator(s[0]) then 0 else 1 + RunLength(s[1..], max - 1)
  }

  /** `s.match(/.{1,4}/g)`: at each position the longest run of up to four
      characters other than line terminators; a line terminator is skipped. */
  function Chunks(s: string): (cs: seq<string>)
    ensures forall k | 0 <= k < |cs| :: 1 <= |cs[k]| <= 4 && NoLineTerminator(cs[k])
    decreases |s|
  {
    if s == [] then []
    else if IsLineTerminator(s[0]) then Chunks(s[1..])
    else
      var n := RunLength(s, 4);
      [s[..n]] + Chunks(s[n..])
  }

  function Join(parts: seq<string>, sep: string): string {
    if parts == [] then ""
    else if |parts| == 1 then parts[0]
    else parts[0] + sep + Join(parts[1..], sep)
  }

  /** `formatearTarjeta`: the chunks joined by single spaces; when nothing
      matched (the empty string) the input itself. */
  function FormatCard(numero: string): string {
    var cs := Chunks(numero);
    if cs == [] then numero else Join(cs, " ")
  }

  function Flatten(parts: seq<string>): string {
    if parts == [] then "" else parts[0] + Flatten(parts[1..])
  }

  /** `s` without the characters `drop` rejects. */
  function RemoveWhere(s: string, drop: char -> bool): string {
    if s == [] then "" else (if drop(s[0]) then "" else [s[0]]) + RemoveWhere(s[1..], drop)
  }

  lemma {:induction false} RemoveWhereConcat(a: string, b: string, drop: char -> bool)
    ensures RemoveWhere(a + b, drop) == RemoveWhere(a, drop) + RemoveWhere(b, drop)
  {
    if a == [] {
      assert a + b == b;
    } else {
      assert (a + b)[1..] == a[1..] + b;
      RemoveWhereConcat(a[1..], b, drop);
    }
  }

  lemma {:induction false} RemoveWhereNone(s: string, drop: char -> bool)
    requires forall i | 0 <= i < |s| :: !drop(s[i])
    ensures RemoveWhere(s, drop) == s
  {
    if s != [] {
      RemoveWhereNone(s[1..], drop);
    }
  }

  /** The chunks, put back together, are the input without its line
      terminators: no character is lost, repeated or reordered. */
  lemma {:induction false} ChunksCoverInput(s: string)
    ensures Flatten(Chunks(s)) == RemoveWhere(s, IsLineTerminator)
    decreases |s|
  {
    if s == [] {
    } else if IsLineTerminator(s[0]) {
      ChunksCoverInput(s[1..]);
    } else {
      var n := RunLength(s, 4);
      assert s == s[..n] + s[n..];
      ChunksCoverInput(s[n..]);
      RemoveWhereConcat(s[..n], s[n..], IsLineTerminator);
      RemoveWhereNone(s[..n], IsLineTerminator);
      assert Chunks(s)[1..] == Chunks(s[n..]);
    }
  }

  /** Where the `k`-th block of four of a string of length `len` ends. */
  function BlockEnd(len: nat, k: nat): nat {
    if 4 * k + 4 <= len then 4 * k + 4 else len
  }

  lemma {:induction false} RunLengthNoTerminator(s: string, max: nat)
    requires NoLineTerminator(s)
    ensures RunLength(s, max) == if max <= |s| then max else |s|
  {
    if s != [] && max != 0 {
      RunLengthNoTerminator(s[1..], max - 1);
    }
  }

  lemma BlockShift(s: string, k: nat)
    requires 4 < |s| && 1 <= k && 4 * k < |s|
    ensures s[4..][4 * (k - 1) .. BlockEnd(|s| - 4, k - 1)] == s[4 * k .. BlockEnd(|s|, k)]
  {
    assert 4 * (k - 1) + 4 == 4 * k;
    assert BlockEnd(|s| - 4, k - 1) + 4 == BlockEnd(|s|, k);
  }

  /** Without line terminators the chunks are consecutive blocks of four;
      only the last may be shorter. */
  lemma {:induction false} ChunksAreBlocksOfFour(s: string)
    requires NoLineTerminator(s)
    ensures |Chunks(s)| == (|s| + 3) / 4
    ensures forall k | 0 <= k < |Chunks(s)| :: 4 * k < |s| && Chunks(s)[k] == s[4 * k .. BlockEnd(|s|, k)]
    decreases |s|
  {
    if s == [] {
    } else if |s| <= 4 {
      RunLengthNoTerminator(s, 4);
      assert s[|s|..] == [];
      assert Chunks(s) == [s[..|s|]] + Chunks([]);
    } else {
      RunLengthNoTerminator(s, 4);
      var rest := s[4..];
      assert NoLineTerminator(rest) by {
        forall i | 0 <= i < |rest| ensures !IsLineTerminator(rest[i]) {
          assert rest[i] == s[i + 4];
        }
      }
      ChunksAreBlocksOfFour(rest);
      var cs := Chunks(s);
      assert cs == [s[..4]] + Chunks(rest);
      forall k | 1 <= k < |cs| ensures 4 * k < |s| && cs[k] == s[4 * k .. BlockEnd(|s|, k)] {
        assert cs[k] == Chunks(rest)[k - 1];
        BlockShift(s, k);
      }
    }
  }

  lemma {:induction false} JoinThenRemoveSeparators(parts: seq<string>)
    requires forall k | 0 <= k < |parts| :: forall i | 0 <= i < |parts[k]| :: parts[k][i] != ' '
    ensures RemoveWhere(Join(parts, " "), c => c == ' ') == Flatten(parts)
  {
    var isSpace := c => c == ' ';
    if parts == [] {
    } else if |parts| == 1 {
      RemoveWhereNone(parts[0], isSpace);
      assert Flatten(parts) == parts[0] + Flatten([]);
    } else {
      JoinThenRemoveSeparators(parts[1..]);
      RemoveWhereConcat(parts[0] + " ", Join(parts[1..], " "), isSpace);
      RemoveWhereConcat(parts[0], " ", isSpace);
      RemoveWhereNone(parts[0], isSpace);
      assert RemoveWhere(" ", isSpace) == "";
    }
  }

  /** A card number without spaces or line breaks comes back from its
      formatted form by removing the separators, and the empty string is
      returned as it is. */
  lemma FormatCardRoundTrip(numero: string)
    requires NoLineTerminator(numero)
    requires forall i | 0 <= i < |numero| :: numero[i] != ' '
    ensures RemoveWhere(FormatCard(numero), c => c == ' ') == numero
    ensures numero == "" ==> FormatCard(numero) == ""
  {
    var cs := Chunks(numero);
    ChunksCoverInput(numero);
    RemoveWhereNone(numero, IsLineTerminator);
    if cs == [] {
      RemoveWhereNone(numero, c => c == ' ');
    } else {
      ChunksAreBlocksOfFour(numero);
      forall k | 0 <= k < |cs| ensures forall i | 0 <= i < |cs[k]| :: cs[k][i] != ' ' {
        var lo := 4 * k;
        forall i | 0 <= i < |cs[k]| ensures cs[k][i] != ' ' {
          assert cs[k][i] == numero[lo + i];
        }
      }
      JoinThenRemoveSeparators(cs);
    }
  }
}
