/** The database rows of the payment, order and eSIM protocol.

    A row carries the columns the protocol reads or writes, and a trace part: counters of
    outgoing calls and the id of the actor that won a guarded update. The trace part is written
    by the steps and read by no branch of them; it only lets the theorems speak about a run. */
module Tables {

  datatype Option<+T> = None | Some(value: T)

  // What a call returns or throws.
  datatype Result<+T, +E> = Ok(value: T) | Err(error: E)

  datatype Provider = JoyTel | BillionConnect | Mobiline | OtherProvider

  datatype TxStatus =
    | TxPending | TxSuccess | TxWaiting | TxFailed | TxCanceled | TxRefunded | TxError | TxUnknown

  // One status type serves orders and SIMs, as in the schema.
  datatype Status = Created | Pending | RedeemCoupon | NotifyCoupon | Completed | Failed

  datatype UsageStatus = UsagePending | UsageConfirmed | UsageCanceled

  // Trace part: `prep` is the checkout that made the row, `launched` the processConfirmedPayment that
  // its payment launched.
  datatype Tx = Tx(
    status: TxStatus, user: Option<nat>, order: Option<nat>, paymentId: Option<nat>,
    prep: nat, launched: Option<nat>)

  // Trace part: `prepared` once checkout has written every row of the order, `cancelled` once the
  // stale-order job has cancelled it.
  datatype Order = Order(status: Status, tx: nat, prepared: bool, cancelled: bool)

  datatype Ticket = Ticket(orderTid: string, orderCode: string)

  // Trace part: `owner` won the claim of the SIM, `qrBy` the right to request its QR from JoyTel,
  // `deliverBy` the right to deliver it for Mobiline; the counters count the calls really made.
  datatype Sim = Sim(
    status: Status, provider: Provider, order: nat,
    ticket: Option<Ticket>, snPin: Option<string>, channelId: Option<string>,
    iccid: Option<string>, qrcode: Option<string>,
    owner: Option<nat>, submits: nat, qrBy: Option<nat>, qrCalls: nat,
    deliverBy: Option<nat>, deliveries: nat)

  // Usages are keyed by their transaction: transaction_id is unique and checkout always sets it.
  datatype Usage = Usage(status: UsageStatus, promo: nat, user: nat, order: nat, discount: nat, credit: nat)

  datatype Promo = Promo(active: bool, limit: Option<nat>, usedCount: nat, agent: Option<nat>, credit: nat)

  // Ledger rows are keyed by their usage: promo_usage_id is unique.
  datatype Entry = Entry(agent: nat, amount: nat)

  predicate PaidStatus(s: TxStatus) {
    s == TxSuccess || s == TxWaiting
  }

  predicate Supported(p: Provider) {
    p != OtherProvider
  }

  // The characters String.prototype.trim removes.
  predicate White(c: char) {
    c in " \t\n\r\U{000B}\U{000C}\U{00A0}\U{1680}\U{2028}\U{2029}\U{202F}\U{205F}\U{3000}\U{FEFF}"
    || '\U{2000}' <= c <= '\U{200A}'
  }

  predicate Blank(s: string) {
    forall i | 0 <= i < |s| :: White(s[i])
  }

  predicate Distinct<T(==)>(s: seq<T>) {
    forall i, j | 0 <= i < j < |s| :: s[i] != s[j]
  }

  function Sum(s: seq<nat>): nat {
    if s == [] then 0 else Sum(s[..|s| - 1]) + s[|s| - 1]
  }

  lemma {:induction false} SumOfUpdate(s: seq<nat>, i: nat, v: nat)
    requires i < |s|
    ensures Sum(s[i := v]) + s[i] == Sum(s) + v
  {
    var n := |s| - 1;
    if i == n {
      assert s[i := v][..n] == s[..n];
    } else {
      SumOfUpdate(s[..n], i, v);
      assert s[i := v][..n] == s[..n][i := v];
    }
  }
}
