/** The payment-proof upload card: the countdown to the payment deadline, when
    an upload is allowed, the status line and its colour, and the submit flow.
    The transaction query, the clock and the upload request are inputs. */
module UploadCard {

  import opened Options
  import opened Text
  import opened JsMath
  import TransactionDetail
  import opened Validation

  /** Whole seconds left, never negative (`Math.max(0, Math.floor(ms / 1000))`;
      Dafny's `/` by a positive divisor is the floor). */
  function SecondsLeft(ms: int): (secs: nat)
    ensures ms < 1000 ==> secs == 0
    ensures 0 <= ms ==> secs * 1000 <= ms < secs * 1000 + 1000
  {
    Max(0, ms / 1000)
  }

  /** A clock field: the number's decimal digits, left-padded with zeros to two. */
  function Field2(n: nat): string {
    PadStart(NatToString(n), 2, '0')
  }

  /** `msToClock`: `hh:mm:ss` of the whole seconds left; the countdown
      reads back as exactly those seconds. */
  function MsToClock(ms: int): (clock: string)
    ensures IsClock(clock) && ClockSeconds(clock) == SecondsLeft(ms)
  {
    Clock(SecondsLeft(ms))
  }

  /** `hh:mm:ss` of a number of seconds. Reading it back gives exactly those
      seconds, with minutes and seconds below 60 and the hours at least two
      digits wide. */
  function Clock(s: nat): (c: string)
    ensures IsClock(c) && ClockSeconds(c) == s
    ensures Minutes(c) < 60 && Seconds(c) < 60 && |c| >= 8
  {
    var h, m, sec := s / 3600, (s % 3600) / 60, s % 60;
    SecondsSplit(s);
    FieldDigits(h);
    FieldDigits(m);
    FieldDigits(sec);
    ClockOfFields(Field2(h), Field2(m), Field2(sec));
    Field2(h) + ":" + Field2(m) + ":" + Field2(sec)
  }

  /** A padded field is all digits, at least two of them, two when the number
      is below 100, and reads back as the number. */
  lemma FieldDigits(n: nat)
    ensures var f := Field2(n);
      && |f| >= 2 && AllDigits(f) && DigitsValue(f) == n
      && (n < 100 ==> |f| == 2)
  {
    var digits := NatToString(n);
    var f := Field2(n);
    var zeros := f[..|f| - |digits|];
    assert f == zeros + digits;
    ZerosDoNotCount(zeros, digits);
    if 10 <= n < 100 {
      assert NatToString(n) == NatToString(n / 10) + [DigitChar(n % 10)];
    }
  }

  /** The shape `msToClock` produces: digits, `:`, two digits, `:`, two digits. */
  predicate IsClock(c: string) {
    && |c| >= 8
    && c[|c| - 3] == ':' && c[|c| - 6] == ':'
    && AllDigits(c[..|c| - 6]) && AllDigits(c[|c| - 5..|c| - 3]) && AllDigits(c[|c| - 2..])
  }

  function Hours(c: string): nat
    requires IsClock(c)
  {
    DigitsValue(c[..|c| - 6])
  }

  function Minutes(c: string): nat
    requires IsClock(c)
  {
    DigitsValue(c[|c| - 5..|c| - 3])
  }

  function Seconds(c: string): nat
    requires IsClock(c)
  {
    DigitsValue(c[|c| - 2..])
  }

  /** The number of seconds a clock shows. */
  function ClockSeconds(c: string): nat
    requires IsClock(c)
  {
    Hours(c) * 3600 + Minutes(c) * 60 + Seconds(c)
  }

  /** Three digit fields joined by colons form a clock showing their
      combined seconds. */
  lemma ClockOfFields(hh: string, mm: string, ss: string)
    requires |hh| >= 2 && |mm| == 2 && |ss| == 2
    requires AllDigits(hh) && AllDigits(mm) && AllDigits(ss)
    ensures var c := hh + ":" + mm + ":" + ss;
      && IsClock(c) && |c| == |hh| + 6
      && Hours(c) == DigitsValue(hh) && Minutes(c) == DigitsValue(mm) && Seconds(c) == DigitsValue(ss)
  {
    var c := hh + ":" + mm + ":" + ss;
    var n := |hh|;
    assert |c| == n + 6;
    forall k | 0 <= k < n
      ensures c[k] == hh[k]
    {
    }
    assert c[..n] == hh;
    assert c[n] == ':' && c[n + 3] == ':';
    assert c[n + 1] == mm[0] && c[n + 2] == mm[1];
    assert c[n + 1..n + 3] == mm;
    assert c[n + 4] == ss[0] && c[n + 5] == ss[1];
    assert c[n + 4..] == ss;
  }

  /** Hours, minutes and seconds recombine to the total. */
  lemma SecondsSplit(s: nat)
    ensures (s % 3600) / 60 < 60 && s % 60 < 60
    ensures (s / 3600) * 3600 + ((s % 3600) / 60) * 60 + s % 60 == s
  {
    var r := s % 3600;
    assert s == (s / 3600) * 3600 + r;
    assert r == (r / 60) * 60 + r % 60;
    assert r % 60 == s % 60;
  }

  /** Zero, padded. */
  lemma ZeroField()
    ensures Field2(0) == "00"
  {
    assert NatToString(0) == "0";
    assert seq(1, _ => '0') == "0";
  }

  /** A countdown at or past the deadline shows `00:00:00`. */
  lemma ExpiredClockIsZero(ms: int)
    requires ms < 1000
    ensures MsToClock(ms) == "00:00:00"
  {
    assert SecondsLeft(ms) == 0;
    ZeroClock();
  }

  /** Zero seconds, as a clock. */
  lemma ZeroClock()
    ensures Clock(0) == "00:00:00"
  {
    ZeroField();
    assert 0 / 3600 == 0 && (0 % 3600) / 60 == 0 && 0 % 60 == 0;
    assert Clock(0) == "00" + ":" + "00" + ":" + "00";
  }

  const WaitingForPayment: string := "WAITING_FOR_PAYMENT"

  /** `isExpired`: the server says so, or a transaction awaiting payment has
      run out of time. `status` is `trx?.status` (absent while loading). */
  predicate IsExpired(status: Option<string>, remainMs: int) {
    status == Some("EXPIRED") || (status == Some(WaitingForPayment) && remainMs <= 0)
  }

  /** `canUpload`: awaiting payment and not expired. That is exactly a
      transaction awaiting payment with time left, and never an expired one. */
  predicate CanUpload(status: Option<string>, remainMs: int)
    ensures CanUpload(status, remainMs) <==> status == Some(WaitingForPayment) && remainMs > 0
    ensures !(CanUpload(status, remainMs) && IsExpired(status, remainMs))
  {
    status == Some(WaitingForPayment) && !IsExpired(status, remainMs)
  }

  /** The labels `statusText` gives; unlike `mapStatus` it names `CANCELED`
      and does not know the review codes. */
  const StatusTexts: map<string, string> := map[
    "WAITING_FOR_PAYMENT" := "To Pay",
    "WAITING_FOR_CONFIRMATION" := "Waiting for confirmation by admin",
    "PAID" := "Paid",
    "REJECT" := "Rejected",
    "CANCELED" := "Canceled",
    "EXPIRED" := "Expired"
  ]

  /** `statusText`: "Loading..." until the transaction arrives, then the label
      of a known code or the code itself. */
  function StatusText(status: Option<string>): (text: string)
    ensures status.None? ==> text == "Loading..."
    ensures status.Some? && status.value in StatusTexts ==> text == StatusTexts[status.value]
    ensures status.Some? && status.value !in StatusTexts ==> text == status.value
  {
    match status
    case None => "Loading..."
    case Some(s) =>
      if s == "WAITING_FOR_PAYMENT" then "To Pay"
      else if s == "WAITING_FOR_CONFIRMATION" then "Waiting for confirmation by admin"
      else if s == "PAID" then "Paid"
      else if s == "REJECT" then "Rejected"
      else if s == "CANCELED" then "Canceled"
      else if s == "EXPIRED" then "Expired"
      else s
  }

  /** The card and the modal label every status alike, except `CANCELED`
      (named only here) and the two review codes (named only by the modal). */
  lemma StatusTextAgreesWithModal(s: string)
    ensures StatusText(Some(s)) == TransactionDetail.MapStatus(s)
        <==> s != "CANCELED" && s != "WAITING_FOR_REVIEW" && s != "REVIEW_DONE"
  {
  }

  const Green: string := "text-green-600"
  const Red: string := "text-red-600"
  const Neutral: string := "text-slate-900"

  /** `statusColor`: green once proof is in or paid, red for a dead
      transaction, neutral otherwise (including while loading). */
  function StatusColor(status: Option<string>): (colour: string)
    ensures colour == Green <==> status == Some("WAITING_FOR_CONFIRMATION") || status == Some("PAID")
    ensures colour == Red <==> status == Some("EXPIRED") || status == Some("CANCELED") || status == Some("REJECT")
    ensures colour == Green || colour == Red || colour == Neutral
  {
    if status == Some("WAITING_FOR_CONFIRMATION") then Green
    else if status == Some("PAID") then Green
    else if status == Some("EXPIRED") || status == Some("CANCELED") || status == Some("REJECT") then Red
    else Neutral
  }

  /** A transaction in which an upload is allowed is shown in the neutral colour. */
  lemma UploadableIsNeutral(status: Option<string>, remainMs: int)
    requires CanUpload(status, remainMs)
    ensures StatusColor(status) == Neutral
  {
  }

  /** The `onError` toast: `ax?.response?.data?.message || err.message`, or
      "Upload gagal." when the error carries no message. */
  function UploadErrorMessage(f: RequestFailure): (msg: string)
    ensures f.responseMessage.Some? && f.responseMessage.value != "" ==> msg == f.responseMessage.value
    ensures Falsy(f.responseMessage) ==> msg == f.errorMessage.GetOr("Upload gagal.")
  {
    if f.responseMessage.Some? && f.responseMessage.value != "" then f.responseMessage.value
    else f.errorMessage.GetOr("Upload gagal.")
  }

  const RefusedMessage: string := "Tidak bisa upload: status transaksi tidak valid / sudah expired."
  const ImageRequired: string := "Bukti pembayaran wajib diupload."

  /** What a press of "Submit Bukti Bayar" leads to. */
  datatype SubmitOutcome =
    | Invalid(message: string)   // the form's schema rejects: no file chosen
    | Refused(message: string)   // `!canUpload`: error toast, nothing sent
    | Failed(message: string)    // the mutation threw (no token, or the request failed)
    | Uploaded                   // the proof was accepted

  /** The card's state: the fetched transaction's status, the countdown and
      the form's file field. */
  class Card {
    var status: Option<string>
    var remainMs: int
    var image: Option<FileRef>

    constructor (status: Option<string>)
      ensures this.status == status && remainMs == 0 && image == None
    {
      this.status := status;
      remainMs := 0;
      image := None;
    }

    /** `selectedFileName`. */
    function SelectedFileName(): (name: string)
      reads this
      ensures image.None? ==> name == ""
      ensures image.Some? ==> name == image.value.name
    {
      if image.Some? then image.value.name else ""
    }

    /** The submit button is rendered exactly when an upload is allowed. */
    predicate SubmitShown()
      reads this
    {
      CanUpload(status, remainMs)
    }

    /** The countdown line is shown while the transaction awaits payment. */
    predicate CountdownShown()
      reads this
    {
      status == Some(WaitingForPayment)
    }

    /** One `tick` of the countdown: `deadline` is the payment deadline in
        epoch milliseconds (absent when the transaction has none) and `now`
        the current time. */
    method Tick(deadline: Option<int>, now: int)
      modifies this`remainMs
      ensures deadline.None? ==> remainMs == old(remainMs)
      ensures deadline.Some? ==> remainMs == deadline.value - now
    {
      if deadline.None? {
        return;
      }
      remainMs := deadline.value - now;
    }

    /** The file input's `onChange`: while an upload is allowed a chosen file
        replaces the field; an empty choice leaves it as it was, and so does
        any choice while the input is disabled (`!canUpload`). */
    method OnFileChosen(file: Option<FileRef>)
      modifies this`image
      ensures image == if file.Some? && CanUpload(status, remainMs) then file else old(image)
    {
      if file.Some? && CanUpload(status, remainMs) {
        image := file;
      }
    }

    /** The form's submit: validation, the `canUpload` guard, the mutation's
        token check, then the request, whose reply is `reply`; on success the
        form is reset and the transaction re-fetched (`refetched` status). */
    method Submit(hasToken: bool, reply: Result<(), RequestFailure>, refetched: Option<string>)
      returns (outcome: SubmitOutcome)
      modifies this`image, this`status
      ensures old(image).None? ==> outcome == Invalid(ImageRequired)
      ensures old(image).Some? && !CanUpload(old(status), remainMs) ==> outcome == Refused(RefusedMessage)
      ensures old(image).Some? && CanUpload(old(status), remainMs) && !hasToken ==> outcome == Failed(NoToken)
      ensures old(image).Some? && CanUpload(old(status), remainMs) && hasToken ==>
        outcome == (if reply.Ok? then Uploaded else Failed(UploadErrorMessage(reply.error)))
      ensures outcome.Uploaded? ==> image == None && status == refetched
      ensures !outcome.Uploaded? ==> image == old(image) && status == old(status)
    {
      if image.None? {
        return Invalid(ImageRequired);
      }
      if !CanUpload(status, remainMs) {
        return Refused(RefusedMessage);
      }
      if !hasToken {
        return Failed(NoToken);
      }
      match reply {
        case Ok(_) =>
          image := None;
          status := refetched;
          outcome := Uploaded;
        case Err(failure) =>
          outcome := Failed(UploadErrorMessage(failure));
      }
    }
  }
}
