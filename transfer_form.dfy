/** The transfer page of the client (`transferir.component.ts`): the fee and
    total preview, the form check, the request it sends to `/transaction`, the
    timestamp it formats for MySQL, the handling of the reply, the receipt and
    the e-mail that carries it. */
module TransferForm {
  import opened Js
  import Server

  /** The flat fee the preview adds to every non-zero amount. */
  const Fee: int := 5

  const MsgSelectCard := "Seleccione una tarjeta de origen"
  const MsgEnterAccount := "Ingrese la cuenta del beneficiario"
  const MsgEnterAmount := "Ingrese un monto válido"
  const MsgTransferOk := "Transferencia realizada con éxito"
  const MsgTransferFailed := "Error al procesar la transferencia"
  const MsgNoReceipt := "No hay comprobante disponible."
  const MsgPopupBlocked := "El navegador bloqueó la ventana de comprobante. Habilita pop-ups."
  const MsgReceiptSent := " - Comprobante enviado a tu correo."
  const MsgReceiptNotSent := " | No se pudo enviar el comprobante por correo."
  const DefaultConcept := "Transferencia"
  const SubjectPrefix := "Comprobante de tu Transferencia #"

  // ---------------------------------------------------------------------
  // The MySQL timestamp
  // ---------------------------------------------------------------------

  /** `s.replace('T', ' ')`: only the first 'T' is replaced. */
  function ReplaceFirstT(s: string): (r: string)
    ensures |r| == |s|
  {
    if s == [] then []
    else if s[0] == 'T' then [' '] + s[1..]
    else [s[0]] + ReplaceFirstT(s[1..])
  }

  /** The number of decimal digits at the end of `s`. */
  function TrailingDigits(s: string): (n: nat)
    ensures n <= |s|
    ensures forall i | |s| - n <= i < |s| :: IsDigit(s[i])
    ensures n < |s| ==> !IsDigit(s[|s| - n - 1])
  {
    if s != [] && IsDigit(s[|s| - 1]) then 1 + TrailingDigits(s[..|s| - 1]) else 0
  }

  /** `s.replace(/\.\d+Z$/, '')`. */
  function StripFraction(s: string): string {
    if s == [] || s[|s| - 1] != 'Z' then s
    else
      var body := s[..|s| - 1];
      var n := TrailingDigits(body);
      if 0 < n < |body| && body[|body| - n - 1] == '.' then body[..|body| - n - 1] else s
  }

  /** `formatDateTime`: the ISO timestamp `toISOString()` gives, in MySQL's
      `YYYY-MM-DD HH:mm:ss` form. The clock reading is the parameter. */
  function FormatDateTime(iso: string): string {
    StripFraction(ReplaceFirstT(iso))
  }

  /** The regular expression `\.\d+Z$` matches `s` from index `i`. */
  ghost predicate FractionAt(s: string, i: int) {
    && 0 <= i && i + 2 < |s|
    && s[i] == '.' && s[|s| - 1] == 'Z'
    && forall k | i < k < |s| - 1 :: IsDigit(s[k])
  }

  lemma TrailingDigitsExactly(s: string, k: nat)
    requires k <= |s|
    requires forall i | |s| - k <= i < |s| :: IsDigit(s[i])
    requires k < |s| ==> !IsDigit(s[|s| - k - 1])
    ensures TrailingDigits(s) == k
  {
  }

  /** `StripFraction` removes exactly what the regular expression matches:
      the match when there is one, nothing otherwise. */
  lemma StripFractionIsRegex(s: string)
    ensures forall i :: FractionAt(s, i) ==> StripFraction(s) == s[..i]
    ensures (forall i :: !FractionAt(s, i)) ==> StripFraction(s) == s
  {
    forall i | FractionAt(s, i) ensures StripFraction(s) == s[..i] {
      var body := s[..|s| - 1];
      TrailingDigitsExactly(body, |body| - i - 1);
    }
    if s != [] && s[|s| - 1] == 'Z' {
      var body := s[..|s| - 1];
      var n := TrailingDigits(body);
      if 0 < n < |body| && body[|body| - n - 1] == '.' {
        assert FractionAt(s, |body| - n - 1);
      }
    }
  }

  lemma {:induction false} ReplaceFirstTAt(s: string, k: nat)
    requires k < |s| && s[k] == 'T'
    requires forall j | 0 <= j < k :: s[j] != 'T'
    ensures ReplaceFirstT(s) == s[..k] + " " + s[k + 1..]
  {
    if k > 0 {
      ReplaceFirstTAt(s[1..], k - 1);
      assert s[1..][..k - 1] == s[1..k];
      assert s[1..][k..] == s[k + 1..];
      assert s[..k] == [s[0]] + s[1..k];
    }
  }

  /** A string without a 'T' comes back from `replace('T', ' ')` as it
      was. */
  lemma {:induction false} ReplaceFirstTAbsent(s: string)
    requires forall j | 0 <= j < |s| :: s[j] != 'T'
    ensures ReplaceFirstT(s) == s
  {
    if s != [] {
      ReplaceFirstTAbsent(s[1..]);
      assert [s[0]] + s[1..] == s;
    }
  }

  predicate DigitsIn(s: string, lo: nat, hi: nat)
    requires lo <= hi <= |s|
  {
    forall i | lo <= i < hi :: IsDigit(s[i])
  }

  /** The 24-character `YYYY-MM-DDTHH:mm:ss.sssZ` that `toISOString()`
      produces for years 0 to 9999. */
  predicate IsIsoInstant(s: string) {
    && |s| == 24
    && DigitsIn(s, 0, 4) && s[4] == '-' && DigitsIn(s, 5, 7) && s[7] == '-' && DigitsIn(s, 8, 10)
    && s[10] == 'T' && DigitsIn(s, 11, 13) && s[13] == ':' && DigitsIn(s, 14, 16) && s[16] == ':'
    && DigitsIn(s, 17, 19) && s[19] == '.' && DigitsIn(s, 20, 23) && s[23] == 'Z'
  }

  /** MySQL's 19-character `YYYY-MM-DD HH:mm:ss`. */
  predicate IsMySqlDateTime(s: string) {
    && |s| == 19
    && DigitsIn(s, 0, 4) && s[4] == '-' && DigitsIn(s, 5, 7) && s[7] == '-' && DigitsIn(s, 8, 10)
    && s[10] == ' ' && DigitsIn(s, 11, 13) && s[13] == ':' && DigitsIn(s, 14, 16) && s[16] == ':'
    && DigitsIn(s, 17, 19)
  }

  /** A canonical ISO instant becomes the MySQL timestamp of the same date
      and time, to the second. */
  lemma FormatIsoInstant(iso: string)
    requires IsIsoInstant(iso)
    ensures FormatDateTime(iso) == iso[..10] + " " + iso[11..19]
    ensures IsMySqlDateTime(FormatDateTime(iso))
  {
    forall j | 0 <= j < 10 ensures iso[j] != 'T' {
      if j != 4 && j != 7 {
        assert IsDigit(iso[j]);
      }
    }
    ReplaceFirstTAt(iso, 10);
    var t := ReplaceFirstT(iso);
    assert t == iso[..10] + " " + iso[11..];
    forall k | 19 < k < |t| - 1 ensures IsDigit(t[k]) {
      assert t[k] == iso[k];
    }
    assert FractionAt(t, 19);
    StripFractionIsRegex(t);
    assert t[..19] == iso[..10] + " " + iso[11..19];
  }

  // ---------------------------------------------------------------------
  // The form
  // ---------------------------------------------------------------------

  /** `!x` for a field of type `number | null`. */
  predicate Present(x: Option<int>) {
    x.Some? && x.value != 0
  }

  /** `validateTransferData` accepts: an origin card, a beneficiary account
      and an amount above zero. The beneficiary's name is not checked. */
  predicate FormValid(originCardId: Option<int>, beneficiaryAccountRef: string, amount: Option<int>) {
    Present(originCardId) && beneficiaryAccountRef != "" && Present(amount) && amount.value > 0
  }

  /** The body `transferir` posts to `/transaction`. */
  function TransferPayload(originCardId: int, beneficiaryName: string, beneficiaryAccountRef: string,
                           beneficiaryBank: string, amount: int, concept: string, nowIso: string): Server.TransferRequest
  {
    Server.TransferRequest(Num(originCardId), beneficiaryName, beneficiaryAccountRef, beneficiaryBank,
      Num(amount), if concept == "" then DefaultConcept else concept, FormatDateTime(nowIso))
  }

  /** What a transfer reply holds, every field optional. */
  datatype TransferResult = TransferResult(
    chargeId: Option<int>, amount: Option<int>, fee: Option<int>,
    debitedTotal: Option<int>, newBalance: Option<int>, transactionAt: Option<string>)

  /** The reply to a request: a 2xx body (`next`) or an HTTP error (`error`),
      with the server's message ("" when absent). */
  datatype TransferReply =
    | Answered(status: string, message: string, data: Option<TransferResult>)
    | HttpError(message: string)

  /** What the receipt shows, in the order the template lays it out; the
      markup and the money and date formatting are presentation. */
  datatype ReceiptView = ReceiptView(
    chargeId: Option<int>, transactionAt: Option<string>, originCardId: Option<int>, concept: string,
    beneficiaryName: string, beneficiaryAccountRef: string, beneficiaryBank: string,
    amount: Option<int>, fee: Option<int>, debitedTotal: Option<int>, newBalance: Option<int>,
    recipient: string)

  /** The request to `/api/enviar-comprobante`. */
  datatype ReceiptMail = ReceiptMail(toEmail: string, subject: string, htmlBody: ReceiptView)

  /** The subject line; a missing charge id prints as `undefined`. */
  function ReceiptSubject(chargeId: Option<int>): string {
    SubjectPrefix + (if chargeId.Some? then IntToString(chargeId.value) else "undefined")
  }

  class Transferir {
    var cargando: bool
    var errorMsg: string
    var successMsg: string
    var userId: Option<int>
    var email: string
    var originCardId: Option<int>
    var beneficiaryName: string
    var beneficiaryAccountRef: string
    var beneficiaryBank: string
    var amount: Option<int>
    var concept: string
    var transactionAt: string
    var resultado: Option<TransferResult>
    var transferenciaRealizada: bool
    var enviandoEmail: bool

    constructor ()
      ensures !cargando && errorMsg == "" && successMsg == "" && userId.None? && email == ""
      ensures originCardId.None? && beneficiaryName == "" && beneficiaryAccountRef == ""
      ensures beneficiaryBank == "" && amount.None? && concept == "" && transactionAt == ""
      ensures resultado.None? && !transferenciaRealizada && !enviandoEmail
    {
      cargando, errorMsg, successMsg := false, "", "";
      userId, email := None, "";
      originCardId, beneficiaryName, beneficiaryAccountRef := None, "", "";
      beneficiaryBank, amount, concept, transactionAt := "", None, "", "";
      resultado, transferenciaRealizada, enviandoEmail := None, false, false;
    }

    /** `feeCalc`. */
    function FeeCalc(): int
      reads this
    {
      if Present(amount) then Fee else 0
    }

    /** `amountSafe`. */
    function AmountSafe(): int
      reads this
    {
      if Present(amount) then amount.value else 0
    }

    /** `totalCalc`. */
    function TotalCalc(): int
      reads this
    {
      AmountSafe() + FeeCalc()
    }

    /** `validateTransferData`: the checks in order, the first failure's
        message, and no change when all pass. */
    method ValidateTransferData() returns (ok: bool)
      modifies this`errorMsg
      ensures ok <==> FormValid(originCardId, beneficiaryAccountRef, amount)
      ensures !Present(originCardId) ==> errorMsg == MsgSelectCard
      ensures Present(originCardId) && beneficiaryAccountRef == "" ==> errorMsg == MsgEnterAccount
      ensures Present(originCardId) && beneficiaryAccountRef != "" && !ok ==> errorMsg == MsgEnterAmount
      ensures ok ==> errorMsg == old(errorMsg)
    {
      if !Present(originCardId) {
        errorMsg := MsgSelectCard;
        return false;
      }
      if beneficiaryAccountRef == "" {
        errorMsg := MsgEnterAccount;
        return false;
      }
      if !Present(amount) || amount.value <= 0 {
        errorMsg := MsgEnterAmount;
        return false;
      }
      return true;
    }

    /** `transferir` up to the request: validate, then raise the busy flag,
        clear both messages and send the body. */
    method Transferir(nowIso: string) returns (sent: Option<Server.TransferRequest>)
      modifies this`errorMsg, this`successMsg, this`cargando
      ensures !FormValid(originCardId, beneficiaryAccountRef, amount) ==>
        sent.None? && cargando == old(cargando) && successMsg == old(successMsg) && errorMsg != ""
      ensures FormValid(originCardId, beneficiaryAccountRef, amount) ==>
        && sent == Some(TransferPayload(originCardId.value, beneficiaryName, beneficiaryAccountRef,
                                        beneficiaryBank, amount.value, concept, nowIso))
        && cargando && errorMsg == "" && successMsg == ""
    {
      var ok := ValidateTransferData();
      if !ok {
        return None;
      }
      cargando := true;
      errorMsg := "";
      successMsg := "";
      return Some(TransferPayload(originCardId.value, beneficiaryName, beneficiaryAccountRef,
                                  beneficiaryBank, amount.value, concept, nowIso));
    }

    /** `construirHtmlComprobante`: nothing (the empty page) without a
        result. */
    function Receipt(): (r: Option<ReceiptView>)
      reads this
      ensures r.None? <==> resultado.None?
      ensures r.Some? ==> r.value.chargeId == resultado.value.chargeId && r.value.amount == resultado.value.amount
    {
      match resultado
      case None => None
      case Some(res) =>
        Some(ReceiptView(
          res.chargeId, res.transactionAt, originCardId, if concept != "" then concept else "—",
          beneficiaryName, beneficiaryAccountRef, if beneficiaryBank != "" then beneficiaryBank else "—",
          res.amount, res.fee, res.debitedTotal, res.newBalance,
          if email != "" then email else "Usuario MazeBank"))
    }

    /** `enviarComprobantePorEmail` up to the request: nothing without a
        result or an address. */
    method EnviarComprobantePorEmail() returns (mail: Option<ReceiptMail>)
      modifies this`enviandoEmail
      ensures resultado.None? || email == "" ==> mail.None? && enviandoEmail == old(enviandoEmail)
      ensures resultado.Some? && email != "" ==>
        mail == Some(ReceiptMail(email, ReceiptSubject(resultado.value.chargeId), Receipt().value)) && enviandoEmail
    {
      if resultado.None? || email == "" {
        return None;
      }
      enviandoEmail := true;
      var html := Receipt();
      return Some(ReceiptMail(email, ReceiptSubject(resultado.value.chargeId), html.value));
    }

    /** The reply to the transfer request, then `finalize`. Success stores the
        result, marks the transfer done and sends the receipt; anything else
        only sets the error message. */
    method OnTransferReply(reply: TransferReply) returns (mail: Option<ReceiptMail>)
      modifies this`resultado, this`successMsg, this`transferenciaRealizada, this`errorMsg, this`cargando, this`enviandoEmail
      ensures !cargando
      ensures reply.Answered? && reply.status == "success" ==>
        && resultado == reply.data
        && successMsg == (if reply.message != "" then reply.message else MsgTransferOk)
        && transferenciaRealizada && errorMsg == old(errorMsg)
        && (reply.data.None? || email == "" ==> mail.None? && enviandoEmail == old(enviandoEmail))
        && (reply.data.Some? && email != "" ==>
              mail == Some(ReceiptMail(email, ReceiptSubject(reply.data.value.chargeId), Receipt().value)) && enviandoEmail)
      ensures !(reply.Answered? && reply.status == "success") ==>
        && errorMsg == (if reply.message != "" then reply.message else MsgTransferFailed)
        && mail.None?
        && resultado == old(resultado) && successMsg == old(successMsg)
        && transferenciaRealizada == old(transferenciaRealizada) && enviandoEmail == old(enviandoEmail)
    {
      mail := None;
      if reply.Answered? && reply.status == "success" {
        resultado := reply.data;
        successMsg := if reply.message != "" then reply.message else MsgTransferOk;
        transferenciaRealizada := true;
        mail := EnviarComprobantePorEmail();
      } else {
        errorMsg := if reply.message != "" then reply.message else MsgTransferFailed;
      }
      cargando := false;
    }

    /** The reply to the receipt e-mail, then `finalize`: one message gets a
        suffix; the result and the done flag stay. */
    method OnReceiptReply(delivered: bool)
      modifies this`successMsg, this`errorMsg, this`enviandoEmail
      ensures delivered ==> successMsg == old(successMsg) + MsgReceiptSent && errorMsg == old(errorMsg)
      ensures !delivered ==> errorMsg == old(errorMsg) + MsgReceiptNotSent && successMsg == old(successMsg)
      ensures !enviandoEmail
    {
      if delivered {
        successMsg := successMsg + MsgReceiptSent;
      } else {
        errorMsg := errorMsg + MsgReceiptNotSent;
      }
      enviandoEmail := false;
    }

    /** `reiniciarTransferencia`: clears the result, the done flag, both
        messages and five form fields; the origin card, the timestamp field
        and the session stay. */
    method ReiniciarTransferencia()
      modifies this`resultado, this`transferenciaRealizada, this`errorMsg, this`successMsg,
               this`beneficiaryName, this`beneficiaryAccountRef, this`beneficiaryBank, this`amount, this`concept
      ensures resultado.None? && !transferenciaRealizada && errorMsg == "" && successMsg == ""
      ensures beneficiaryName == "" && beneficiaryAccountRef == "" && beneficiaryBank == ""
      ensures amount.None? && concept == ""
    {
      resultado := None;
      transferenciaRealizada := false;
      errorMsg := "";
      successMsg := "";
      beneficiaryName := "";
      beneficiaryAccountRef := "";
      beneficiaryBank := "";
      amount := None;
      concept := "";
    }

    /** `abrirComprobante`: the receipt shown in a new window, or the reason
        it is not. */
    method AbrirComprobante(popupAllowed: bool) returns (shown: Option<ReceiptView>)
      modifies this`errorMsg
      ensures resultado.None? ==> shown.None? && errorMsg == MsgNoReceipt
      ensures resultado.Some? && !popupAllowed ==> shown.None? && errorMsg == MsgPopupBlocked
      ensures resultado.Some? && popupAllowed ==> shown == Receipt() && shown.Some? && errorMsg == old(errorMsg)
    {
      if resultado.None? {
        errorMsg := MsgNoReceipt;
        return None;
      }
      var html := Receipt();
      if !popupAllowed {
        errorMsg := MsgPopupBlocked;
        return None;
      }
      return html;
    }
  }

  // ---------------------------------------------------------------------
  // Properties
  // ---------------------------------------------------------------------

  /** The preview charges the fee exactly when there is an amount to show
      (negative ones too), and its total is that amount plus the fee, or 0
      for a null or zero amount. */
  lemma PreviewFee(t: Transferir)
    ensures t.FeeCalc() == Fee <==> t.AmountSafe() != 0
    ensures t.FeeCalc() == 0 || t.FeeCalc() == Fee
    ensures t.TotalCalc() == (if Present(t.amount) then t.amount.value + Fee else 0)
  {
  }

  /** For a form that passes validation the preview shows the debit the
      transfer is meant to make: the amount plus the flat fee. */
  lemma PreviewOfValidForm(t: Transferir)
    requires FormValid(t.originCardId, t.beneficiaryAccountRef, t.amount)
    ensures t.FeeCalc() == Fee && t.TotalCalc() == t.amount.value + Fee
  {
  }

  /** A request the form lets through passes the server's checks as long as
      the beneficiary's name is filled in. */
  lemma ValidFormPassesServer(originCardId: Option<int>, beneficiaryName: string, beneficiaryAccountRef: string,
                              beneficiaryBank: string, amount: Option<int>, concept: string, nowIso: string)
    requires FormValid(originCardId, beneficiaryAccountRef, amount) && beneficiaryName != ""
    ensures Server.TransferInputError(TransferPayload(originCardId.value, beneficiaryName, beneficiaryAccountRef,
                                                      beneficiaryBank, amount.value, concept, nowIso)) == None
  {
    var req := TransferPayload(originCardId.value, beneficiaryName, beneficiaryAccountRef,
                               beneficiaryBank, amount.value, concept, nowIso);
    Server.TransferAcceptedIff(req);
  }

  /** The form does not check the beneficiary's name, which the server
      requires: every form it accepts with the name left empty yields a
      request the server rejects with its "missing data" message. */
  lemma FormSkipsBeneficiaryName(originCardId: Option<int>, beneficiaryAccountRef: string, beneficiaryBank: string,
                                 amount: Option<int>, concept: string, nowIso: string)
    requires FormValid(originCardId, beneficiaryAccountRef, amount)
    ensures Server.TransferInputError(TransferPayload(originCardId.value, "", beneficiaryAccountRef,
                                                      beneficiaryBank, amount.value, concept, nowIso))
            == Some(Server.MsgTransferMissing)
  {
  }

  /** For every request the page sends and the server accepts, the
      procedure receives a concept and never the server's `concept || null`
      null; with a clock reading in `toISOString()` form it receives the
      timestamp of that instant too, never null. */
  lemma PayloadDefaultsConcept(originCardId: Option<int>, beneficiaryName: string, beneficiaryAccountRef: string,
                               beneficiaryBank: string, amount: Option<int>, concept: string, nowIso: string)
    requires FormValid(originCardId, beneficiaryAccountRef, amount) && beneficiaryName != ""
    ensures var req := TransferPayload(originCardId.value, beneficiaryName, beneficiaryAccountRef,
                                       beneficiaryBank, amount.value, concept, nowIso);
      Server.TransferInputError(req) == None
      && Server.TransferArgsOf(req).concept.Some?
      && (IsIsoInstant(nowIso) ==> Server.TransferArgsOf(req).transactionAt == Some(nowIso[..10] + " " + nowIso[11..19]))
  {
    ValidFormPassesServer(originCardId, beneficiaryName, beneficiaryAccountRef, beneficiaryBank, amount, concept, nowIso);
    if IsIsoInstant(nowIso) {
      FormatIsoInstant(nowIso);
    }
  }
}
