/**
 * The concrete products of the Factory Method payment example: two processors that each
 * validate an amount against their own limit, remember only the outcome and transaction id
 * of their most recent payment, and report a status text built from those two fields.
 *
 * Amounts are C# `decimal`, exact base-10 numbers, modelled as `real`. The credit-card
 * processor's `Guid.NewGuid()` and the PayPal processor's `DateTime.UtcNow.Ticks` are
 * parameters of `ProcessPayment`. A transaction id that was never set is C#'s `null`,
 * here `None`.
 */
module PaymentProcessors {
  import opened Wrappers
  import opened Strings

  /** The amounts each processor accepts lie strictly between zero and its limit. */
  const CreditCardLimit: real := 15000.0
  const PayPalLimit: real := 10000.0

  const CreditCardSuccess: string := "Credit card payment successful. Transaction ID: "
  const CreditCardFailure: string := "Credit card payment failed"
  const PayPalSuccess: string := "PayPal payment successful. PayPal Transaction ID: "
  const PayPalFailure: string := "PayPal payment failed"

  /** The text of `id` inside an interpolated string: `null` interpolates as nothing. */
  function Interpolated(id: Option<string>): string
  {
    if id.Some? then id.value else ""
  }

  /** Neither failure text begins like the success text of the same processor. */
  lemma FailureIsNotSuccess()
    ensures !StartsWith(CreditCardFailure, "Credit card payment successful")
    ensures !StartsWith(PayPalFailure, "PayPal payment successful")
  {
    assert CreditCardFailure[20] != "Credit card payment successful"[20];
    assert PayPalFailure[15] != "PayPal payment successful"[15];
  }

  /** The success texts begin with the words the status check looks for. */
  lemma SuccessPrefixes()
    ensures CreditCardSuccess[..30] == "Credit card payment successful"
    ensures PayPalSuccess[..25] == "PayPal payment successful"
  {
  }

  /** A text that starts with `prefix` starts with every prefix of `prefix`. */
  lemma StartsWithShorter(s: string, prefix: string, k: nat)
    requires StartsWith(s, prefix) && k <= |prefix|
    ensures StartsWith(s, prefix[..k])
  {
    assert s[..k] == s[..|prefix|][..k];
  }

  /** The status text for a last outcome and id, with the outcome readable from its start. */
  function StatusText(status: bool, id: Option<string>, success: string, failure: string): (r: string)
    ensures status ==> StartsWith(r, success) && r[|success|..] == Interpolated(id)
    ensures !status ==> r == failure
  {
    if status then success + Interpolated(id) else failure
  }

  /** `CreditCardProcessor`. */
  class CreditCardProcessor {
    var lastTransactionId: Option<string>
    var lastTransactionStatus: bool

    /** A new processor has no transaction id, and its status field holds `false`. */
    constructor ()
      ensures lastTransactionId.None? && !lastTransactionStatus
    {
      lastTransactionId := None;
      lastTransactionStatus := false;
    }

    /**
     * `ProcessPayment`: a new transaction id and the validation outcome overwrite both fields,
     * whatever any earlier payment left there; the outcome is returned.
     */
    method ProcessPayment(amount: real, newGuid: string) returns (ok: bool)
      modifies this
      ensures ok <==> 0.0 < amount < CreditCardLimit
      ensures lastTransactionId == Some(newGuid) && lastTransactionStatus == ok
    {
      lastTransactionId := Some(newGuid);
      lastTransactionStatus := amount > 0.0 && amount < CreditCardLimit;
      ok := lastTransactionStatus;
    }

    /**
     * `GetPaymentStatus`: it announces success exactly when the last payment was accepted,
     * and then ends with that payment's transaction id.
     */
    function GetPaymentStatus(): (r: string)
      reads this
      ensures StartsWith(r, "Credit card payment successful") <==> lastTransactionStatus
      ensures lastTransactionStatus ==>
        StartsWith(r, CreditCardSuccess) && r[|CreditCardSuccess|..] == Interpolated(lastTransactionId)
      ensures !lastTransactionStatus ==> r == CreditCardFailure
    {
      FailureIsNotSuccess();
      SuccessPrefixes();
      var r := StatusText(lastTransactionStatus, lastTransactionId, CreditCardSuccess, CreditCardFailure);
      if lastTransactionStatus then StartsWithShorter(r, CreditCardSuccess, 30); r else r
    }
  }

  /** The PayPal transaction id for a clock reading: "PP-" and the ticks in decimal. */
  function PayPalTransactionId(ticks: nat): (id: string)
    ensures StartsWith(id, "PP-") && |id| >= 4
    ensures forall j :: 3 <= j < |id| ==> '0' <= id[j] <= '9'
    ensures ParseDigits(id[3..]) == ticks
    ensures |id| > 4 ==> id[3] != '0'
    ensures id == "PP-0" <==> ticks == 0
  {
    var digits := NatToString(ticks);
    ParseNatToString(ticks);
    var id := "PP-" + digits;
    assert id[3..] == digits;
    assert id == "PP-0" <==> digits == "0";
    id
  }

  /** `PayPalProcessor`. */
  class PayPalProcessor {
    var lastPayPalTransactionId: Option<string>
    var lastTransactionStatus: bool

    /** A new processor has no transaction id, and its status field holds `false`. */
    constructor ()
      ensures lastPayPalTransactionId.None? && !lastTransactionStatus
    {
      lastPayPalTransactionId := None;
      lastTransactionStatus := false;
    }

    /**
     * `ProcessPayment`: the id taken from the clock and the validation outcome overwrite both
     * fields; the outcome is returned. The clock's ticks are never negative.
     */
    method ProcessPayment(amount: real, utcTicks: nat) returns (ok: bool)
      modifies this
      ensures ok <==> 0.0 < amount < PayPalLimit
      ensures lastPayPalTransactionId == Some(PayPalTransactionId(utcTicks)) && lastTransactionStatus == ok
    {
      lastPayPalTransactionId := Some(PayPalTransactionId(utcTicks));
      lastTransactionStatus := amount > 0.0 && amount < PayPalLimit;
      ok := lastTransactionStatus;
    }

    /**
     * `GetPaymentStatus`: it announces success exactly when the last payment was accepted,
     * and then ends with that payment's PayPal transaction id.
     */
    function GetPaymentStatus(): (r: string)
      reads this
      ensures StartsWith(r, "PayPal payment successful") <==> lastTransactionStatus
      ensures lastTransactionStatus ==>
        StartsWith(r, PayPalSuccess) && r[|PayPalSuccess|..] == Interpolated(lastPayPalTransactionId)
      ensures !lastTransactionStatus ==> r == PayPalFailure
    {
      FailureIsNotSuccess();
      SuccessPrefixes();
      var r := StatusText(lastTransactionStatus, lastPayPalTransactionId, PayPalSuccess, PayPalFailure);
      if lastTransactionStatus then StartsWithShorter(r, PayPalSuccess, 25); r else r
    }
  }

  /** Before any payment both processors report failure. */
  method FreshProcessorsFail() returns (card: string, payPal: string)
    ensures card == "Credit card payment failed"
    ensures payPal == "PayPal payment failed"
  {
    var c := new CreditCardProcessor();
    card := c.GetPaymentStatus();
    var p := new PayPalProcessor();
    payPal := p.GetPaymentStatus();
  }

  /**
   * Two payments on one credit-card processor: the status reflects the second alone, and a
   * successful status carries the second transaction id.
   */
  method CreditCardLastPaymentDecides(first: real, second: real, guid1: string, guid2: string)
    returns (status: string)
    ensures StartsWith(status, "Credit card payment successful") <==> 0.0 < second < CreditCardLimit
    ensures 0.0 < second < CreditCardLimit ==> status == CreditCardSuccess + guid2
  {
    var c := new CreditCardProcessor();
    var ok1 := c.ProcessPayment(first, guid1);
    var ok2 := c.ProcessPayment(second, guid2);
    status := c.GetPaymentStatus();
  }

  /**
   * Two payments on one PayPal processor: the status reflects the second alone, and a
   * successful status ends with "PP-" and the second clock reading.
   */
  method PayPalLastPaymentDecides(first: real, second: real, ticks1: nat, ticks2: nat)
    returns (status: string)
    ensures StartsWith(status, "PayPal payment successful") <==> 0.0 < second < PayPalLimit
    ensures 0.0 < second < PayPalLimit ==> status == PayPalSuccess + PayPalTransactionId(ticks2)
  {
    var p := new PayPalProcessor();
    var ok1 := p.ProcessPayment(first, ticks1);
    var ok2 := p.ProcessPayment(second, ticks2);
    status := p.GetPaymentStatus();
  }
}
