/** The receipts hook: which receipts a user is shown, the receipt an administrator records
    for a payment, and the paid total derived from the list. The backend's table is a parameter
    given in the server's order (newest first). */
module ReceiptsHook {
  import opened Outcomes
  import opened Text
  import opened Seqs

  datatype PaymentStatus = Paid | Pending | Failed | Refunded

  datatype Receipt = Receipt(
    id: string,
    receiptNumber: string,
    userId: string,
    amount: int,
    taxAmount: int,
    totalAmount: int,
    paymentMethod: string,
    status: PaymentStatus,
    paymentDate: Option<int>,
    description: Option<string>,
    createdAt: int)

  /** The gym every record of this deployment belongs to. */
  const GymId := "00000000-0000-0000-0000-000000000001"

  predicate IsPaid(r: Receipt)
  {
    r.status == Paid
  }

  predicate OwnedBy(r: Receipt, uid: string)
  {
    r.userId == uid
  }

  /** The fetch query: an administrator gets the whole table, anyone else only the receipts
      carrying their own user id. */
  function Visible(table: seq<Receipt>, uid: string, isAdmin: bool): (r: seq<Receipt>)
    ensures isAdmin ==> r == table
    ensures !isAdmin ==> forall i :: 0 <= i < |r| ==> r[i] in table && r[i].userId == uid
    ensures !isAdmin ==> forall i :: 0 <= i < |table| && table[i].userId == uid ==> table[i] in r
  {
    if isAdmin then table else Filter(table, (r: Receipt) => OwnedBy(r, uid))
  }

  /** The sum of `total_amount` over a list, as `reduce((sum, r) => sum + r.total_amount, 0)`. */
  function SumTotals(rs: seq<Receipt>): (r: int)
    ensures (forall i :: 0 <= i < |rs| ==> rs[i].totalAmount >= 0) ==> r >= 0
  {
    if rs == [] then 0 else rs[0].totalAmount + SumTotals(rs[1..])
  }

  /** `totalPaid`: the paid receipts kept by `filter`, then summed. */
  function TotalPaid(rs: seq<Receipt>): (r: int)
    ensures (forall i :: 0 <= i < |rs| ==> rs[i].status == Paid) ==> r == SumTotals(rs)
  {
    SumTotals(Filter(rs, IsPaid))
  }

  /** The same total read one receipt at a time: a paid receipt adds its total amount and a
      receipt of any other status adds nothing. */
  lemma {:induction false} TotalPaidCons(r: Receipt, rs: seq<Receipt>)
    ensures TotalPaid([r] + rs) == TotalPaid(rs) + (if r.status == Paid then r.totalAmount else 0)
  {
    FilterCons(r, rs, IsPaid);
    if IsPaid(r) {
      assert ([r] + Filter(rs, IsPaid))[1..] == Filter(rs, IsPaid);
    }
  }

  lemma {:induction false} SumTotalsAppend(a: seq<Receipt>, b: seq<Receipt>)
    ensures SumTotals(a + b) == SumTotals(a) + SumTotals(b)
  {
    if a == [] {
      assert a + b == b;
    } else {
      assert (a + b)[1..] == a[1..] + b;
      SumTotalsAppend(a[1..], b);
    }
  }

  /** The paid total of two lists together is the sum of their paid totals. */
  lemma TotalPaidAppend(a: seq<Receipt>, b: seq<Receipt>)
    ensures TotalPaid(a + b) == TotalPaid(a) + TotalPaid(b)
  {
    FilterAppend(a, b, IsPaid);
    SumTotalsAppend(Filter(a, IsPaid), Filter(b, IsPaid));
  }

  /** Receipts that are pending, failed or refunded contribute nothing, whatever their
      amounts. */
  lemma {:induction false} TotalPaidIgnoresUnpaid(rs: seq<Receipt>)
    requires forall i :: 0 <= i < |rs| ==> rs[i].status != Paid
    ensures TotalPaid(rs) == 0
  {
    if rs != [] {
      assert rs == [rs[0]] + rs[1..];
      TotalPaidCons(rs[0], rs[1..]);
      TotalPaidIgnoresUnpaid(rs[1..]);
    }
  }

  /** With non-negative amounts the paid total is bounded by the total of all receipts. */
  lemma {:induction false} TotalPaidAtMostSum(rs: seq<Receipt>)
    requires forall i :: 0 <= i < |rs| ==> rs[i].totalAmount >= 0
    ensures 0 <= TotalPaid(rs) <= SumTotals(rs)
  {
    if rs != [] {
      assert rs == [rs[0]] + rs[1..];
      TotalPaidCons(rs[0], rs[1..]);
      TotalPaidAtMostSum(rs[1..]);
    }
  }

  /** What `createReceipt` is called with; the two optional strings may be absent. */
  datatype ReceiptRequest = ReceiptRequest(
    userId: string, amount: int, description: Option<string>, paymentMethod: Option<string>)

  /** The row `createReceipt` sends to the backend. */
  datatype ReceiptInsert = ReceiptInsert(
    userId: string,
    amount: int,
    taxAmount: int,
    totalAmount: int,
    description: string,
    paymentMethod: string,
    status: PaymentStatus,
    paymentDate: int,
    gymId: string)

  /** The inserted row: no tax, the total equal to the amount, already paid at `now`, and the
      description and payment method defaulting (for a missing or empty value) to
      'Membership payment' and 'cash'. */
  function NewReceipt(req: ReceiptRequest, now: int): (ins: ReceiptInsert)
    ensures ins.userId == req.userId && ins.amount == req.amount
    ensures ins.taxAmount == 0 && ins.totalAmount == req.amount
    ensures ins.status == Paid && ins.paymentDate == now && ins.gymId == GymId
    ensures ins.description == OrElse(req.description, "Membership payment")
    ensures ins.paymentMethod == OrElse(req.paymentMethod, "cash")
  {
    ReceiptInsert(req.userId, req.amount, 0, req.amount,
                  OrElse(req.description, "Membership payment"), OrElse(req.paymentMethod, "cash"),
                  Paid, now, GymId)
  }

  /** The receipt the table holds once the backend has stored an insert and given it an id,
      a receipt number and a creation time. */
  function Stored(ins: ReceiptInsert, id: string, receiptNumber: string, createdAt: int): (r: Receipt)
    ensures r.id == id && r.receiptNumber == receiptNumber && r.createdAt == createdAt
    ensures r.userId == ins.userId && r.amount == ins.amount && r.taxAmount == ins.taxAmount
    ensures r.totalAmount == ins.totalAmount && r.status == ins.status
    ensures r.paymentMethod == ins.paymentMethod
    ensures r.paymentDate == Some(ins.paymentDate) && r.description == Some(ins.description)
  {
    Receipt(id, receiptNumber, ins.userId, ins.amount, ins.taxAmount, ins.totalAmount,
            ins.paymentMethod, ins.status, Some(ins.paymentDate), Some(ins.description), createdAt)
  }

  /** A recorded payment raises the paying member's paid total by exactly its amount. */
  lemma RecordedPaymentAddsAmount(req: ReceiptRequest, now: int, id: string, number: string,
                                  createdAt: int, table: seq<Receipt>)
    ensures var r := Stored(NewReceipt(req, now), id, number, createdAt);
            TotalPaid(Visible([r] + table, req.userId, false)) ==
              TotalPaid(Visible(table, req.userId, false)) + req.amount
  {
    var r := Stored(NewReceipt(req, now), id, number, createdAt);
    FilterCons(r, table, (x: Receipt) => OwnedBy(x, req.userId));
    TotalPaidCons(r, Visible(table, req.userId, false));
  }

  /** The hook's state. */
  class Receipts {
    var receipts: seq<Receipt>
    var loading: bool
    var error: Option<string>

    constructor ()
      ensures receipts == [] && loading && error == None
    {
      receipts := [];
      loading := true;
      error := None;
    }

    /** `fetchReceipts`: without a client or a user only loading ends. Otherwise a failed query
        empties the list and records its message, and a successful one installs the receipts
        the caller may see; loading ends either way. */
    method FetchReceipts(hasClient: bool, user: Option<string>, isAdmin: bool, table: Outcome<seq<Receipt>>)
      modifies this
      ensures !loading
      ensures !hasClient || user.None? ==> receipts == old(receipts) && error == old(error)
      ensures hasClient && user.Some? && table.Err? ==> receipts == [] && error == Some(table.message)
      ensures hasClient && user.Some? && table.Ok? ==>
                receipts == Visible(table.value, user.value, isAdmin) && error == None
    {
      if !hasClient || user.None? {
        loading := false;
        return;
      }
      loading := true;
      error := None;
      match table {
        case Err(message) =>
          error := Some(message);
          receipts := [];
        case Ok(rows) =>
          receipts := Visible(rows, user.value, isAdmin);
      }
      loading := false;
    }

    /** `createReceipt`. Without a client or as a non-administrator it answers
        'Not authorized' and sends nothing. Otherwise it sends `NewReceipt(req, now)`: an
        insert error is returned and the list is not refetched; a stored row is returned and
        the list is refetched from `refetched`. `inserted` is the backend's answer to the insert.
        `sent` is the row sent to the backend, if any. */
    method CreateReceipt(hasClient: bool, user: Option<string>, isAdmin: bool, req: ReceiptRequest,
                         now: int, inserted: Outcome<Receipt>, refetched: Outcome<seq<Receipt>>)
      returns (result: Result<Receipt>, sent: Option<ReceiptInsert>)
      modifies this
      ensures !hasClient || !isAdmin ==>
                result == Failure("Not authorized") && sent == None &&
                receipts == old(receipts) && loading == old(loading) && error == old(error)
      ensures hasClient && isAdmin ==> sent == Some(NewReceipt(req, now))
      ensures hasClient && isAdmin && inserted.Err? ==>
                result == Failure(inserted.message) &&
                receipts == old(receipts) && loading == old(loading) && error == old(error)
      ensures hasClient && isAdmin && inserted.Ok? ==>
                result == Success(inserted.value) && !loading &&
                (user.None? ==> receipts == old(receipts) && error == old(error)) &&
                (user.Some? && refetched.Err? ==> receipts == [] && error == Some(refetched.message)) &&
                (user.Some? && refetched.Ok? ==>
                   receipts == Visible(refetched.value, user.value, isAdmin) && error == None)
    {
      if !hasClient || !isAdmin {
        return Failure("Not authorized"), None;
      }
      sent := Some(NewReceipt(req, now));
      if inserted.Err? {
        return Failure(inserted.message), sent;
      }
      FetchReceipts(hasClient, user, isAdmin, refetched);
      result := Success(inserted.value);
    }
  }
}
