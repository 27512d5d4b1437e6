/**
 * Gapless invoice numbering (packages/core/src/invoices/server.ts): a number is
 * allocated from the (series, year) counter inside the confirming transaction
 * only, so a rollback gives it back.
 */
module Invoices {
  import opened Common
  import Quotes
  import Tax

  datatype DocType = TaxInvoice | BillOfSupply

  /** Each document type has its own series: INV and BOS. */
  datatype Series = Series(doc: DocType, year: nat)

  /** The header amounts of an invoice, all in paise. */
  datatype Amounts = Amounts(subtotal: int, discount: int, taxable: int, cgst: int, sgst: int, igst: int, total: int)

  /** An invoice is a snapshot: the order's lines as they were, and their sums. */
  datatype Invoice = Invoice(order: OrderId, series: Series, number: nat, lines: seq<Quotes.OrderLine>,
                             amounts: Amounts)

  datatype Register = Register(next: map<Series, nat>, invoices: seq<Invoice>)

  datatype InvoiceError = InvalidInvoice | DuplicateInvoice

  const FIRST_NUMBER := 1

  function DocTypeFor(r: Tax.Registration): DocType { if r.Regular? then TaxInvoice else BillOfSupply }

  function NextNumber(next: map<Series, nat>, s: Series): nat { if s in next then next[s] else FIRST_NUMBER }

  predicate HasInvoice(invoices: seq<Invoice>, o: OrderId, doc: DocType) {
    exists i :: 0 <= i < |invoices| && invoices[i].order == o && invoices[i].series.doc == doc
  }

  /** The amounts an order's invoice carries: its header, and the sums of its lines. */
  function AmountsOf(q: Quotes.Quote): Amounts {
    Amounts(q.subtotal, q.discount, Quotes.SumOf(q.lines, Quotes.Taxable), Quotes.SumOf(q.lines, Quotes.Cgst),
            Quotes.SumOf(q.lines, Quotes.Sgst), Quotes.SumOf(q.lines, Quotes.Igst), q.total)
  }

  predicate SafeAmount(x: int) { 0 <= x <= Tax.MAX_SAFE }

  predicate SafeAmounts(a: Amounts) {
    && SafeAmount(a.subtotal) && SafeAmount(a.discount) && SafeAmount(a.taxable)
    && SafeAmount(a.cgst) && SafeAmount(a.sgst) && SafeAmount(a.igst) && SafeAmount(a.total)
  }

  predicate CarriesTax(a: Amounts) { a.cgst + a.sgst + a.igst != 0 }

  /**
   * Get-or-create the counter row, take its number, insert the
   * invoice: refused by the checks or the order's unique key.
   */
  function Issue(r: Register, o: OrderId, s: Series, lines: seq<Quotes.OrderLine>, a: Amounts)
    : Result<Register, InvoiceError>
  {
    if lines == [] || !SafeAmounts(a) then Failure(InvalidInvoice)
    else if s.doc == BillOfSupply && CarriesTax(a) then Failure(InvalidInvoice)
    else if HasInvoice(r.invoices, o, s.doc) then Failure(DuplicateInvoice)
    else
      var number := NextNumber(r.next, s);
      Success(Register(r.next[s := number + 1], r.invoices + [Invoice(o, s, number, lines, a)]))
  }

  /** None of the seven amounts is negative or beyond the safe integers. */
  ghost predicate IsSafe(a: Amounts) {
    var all := [a.subtotal, a.discount, a.taxable, a.cgst, a.sgst, a.igst, a.total];
    forall i :: 0 <= i < |all| ==> 0 <= all[i] <= Tax.MAX_SAFE
  }

  /**
   * An invoice has lines and amounts in range, carries tax only as a
   * tax invoice, and is its order's first of its kind.
   */
  lemma IssueMeans(r: Register, o: OrderId, s: Series, lines: seq<Quotes.OrderLine>, a: Amounts)
    ensures
      var taken := exists i ::
        0 <= i < |r.invoices| && r.invoices[i].order == o && r.invoices[i].series.doc == s.doc;
      Issue(r, o, s, lines, a) ==
        if lines == [] || !IsSafe(a) || (s.doc == BillOfSupply && a.cgst + a.sgst + a.igst != 0) then
          Failure(InvalidInvoice)
        else if taken then Failure(DuplicateInvoice)
        else
          var number := if s in r.next then r.next[s] else 1;
          Success(Register(r.next[s := number + 1], r.invoices + [Invoice(o, s, number, lines, a)]))
  {
    var all := [a.subtotal, a.discount, a.taxable, a.cgst, a.sgst, a.igst, a.total];
    assert all[0] == a.subtotal && all[1] == a.discount && all[2] == a.taxable && all[3] == a.cgst;
    assert all[4] == a.sgst && all[5] == a.igst && all[6] == a.total;
  }

  // ----- numbering -----

  function CountInvoices(invoices: seq<Invoice>, s: Series): nat {
    if invoices == [] then 0
    else CountInvoices(invoices[..|invoices| - 1], s) + if invoices[|invoices| - 1].series == s then 1 else 0
  }

  /** The counter of every series stands just past its invoices, and each invoice took the counter as it stood. */
  ghost predicate Gapless(r: Register) {
    && (forall s :: NextNumber(r.next, s) == FIRST_NUMBER + CountInvoices(r.invoices, s))
    && Numbered(r.invoices)
  }

  lemma IssueKeeps(r: Register, o: OrderId, s: Series, lines: seq<Quotes.OrderLine>, a: Amounts)
    requires Gapless(r) && Issue(r, o, s, lines, a).Success?
    ensures Gapless(Issue(r, o, s, lines, a).value)
  {
    var t := Issue(r, o, s, lines, a).value;
    var last := t.invoices[|r.invoices|];
    assert t.invoices == r.invoices + [last] && t.next == r.next[s := last.number + 1];
    assert last.series == s && last.number == NextNumber(r.next, s);
    hide Issue;
    assert NextNumber(r.next, s) == FIRST_NUMBER + CountInvoices(r.invoices, s);
    AppendKeepsNumbered(r.invoices, last);
    forall other ensures NextNumber(t.next, other) == FIRST_NUMBER + CountInvoices(t.invoices, other) {
      assert NextNumber(r.next, other) == FIRST_NUMBER + CountInvoices(r.invoices, other);
      CountOfAppend(r.invoices, last, other);
    }
  }

  lemma CountOfAppend(invoices: seq<Invoice>, last: Invoice, s: Series)
    ensures CountInvoices(invoices + [last], s) == CountInvoices(invoices, s) + if last.series == s then 1 else 0
  {
  }

  lemma AppendKeepsNumbered(invoices: seq<Invoice>, last: Invoice)
    requires Numbered(invoices) && last.number == FIRST_NUMBER + CountInvoices(invoices, last.series)
    ensures Numbered(invoices + [last])
  {
    var all := invoices + [last];
    forall i | 0 <= i < |all| ensures all[i].number == FIRST_NUMBER + CountInvoices(all[..i], all[i].series) {
      if i < |invoices| {
        assert all[..i] == invoices[..i];
      } else {
        assert all[..i] == invoices;
      }
    }
  }

  ghost predicate Issued(invoices: seq<Invoice>, s: Series, n: nat) {
    exists i :: 0 <= i < |invoices| && invoices[i].series == s && invoices[i].number == n
  }

  ghost predicate Numbered(invoices: seq<Invoice>) {
    forall i :: 0 <= i < |invoices| ==>
      invoices[i].number == FIRST_NUMBER + CountInvoices(invoices[..i], invoices[i].series)
  }

  lemma NumberedPrefix(invoices: seq<Invoice>, n: nat)
    requires Numbered(invoices) && n <= |invoices|
    ensures Numbered(invoices[..n])
  {
    forall i | 0 <= i < n ensures invoices[..n][..i] == invoices[..i] {
    }
  }

  lemma {:induction false} NumbersAreBounded(invoices: seq<Invoice>, s: Series)
    requires Numbered(invoices)
    ensures forall i :: 0 <= i < |invoices| && invoices[i].series == s ==>
      FIRST_NUMBER <= invoices[i].number < FIRST_NUMBER + CountInvoices(invoices, s)
  {
    if invoices != [] {
      var n := |invoices| - 1;
      assert invoices[n].number == FIRST_NUMBER + CountInvoices(invoices[..n], invoices[n].series);
      NumberedPrefix(invoices, n);
      hide Numbered;
      NumbersAreBounded(invoices[..n], s);
      forall i | 0 <= i < n ensures invoices[..n][i] == invoices[i] {
      }
    }
  }

  lemma {:induction false} NumbersAreDense(invoices: seq<Invoice>, s: Series, n: nat)
    requires Numbered(invoices) && FIRST_NUMBER <= n < FIRST_NUMBER + CountInvoices(invoices, s)
    ensures Issued(invoices, s, n)
  {
    var k := |invoices| - 1;
    NumberedPrefix(invoices, k);
    if n < FIRST_NUMBER + CountInvoices(invoices[..k], s) {
      NumbersAreDense(invoices[..k], s, n);
      var i :| 0 <= i < k && invoices[..k][i].series == s && invoices[..k][i].number == n;
      assert invoices[i].series == s && invoices[i].number == n;
    } else {
      assert invoices[k].series == s && invoices[k].number == n;
    }
  }

  /** The numbers issued in a series are exactly those from the first up to the counter, each once and in order. */
  lemma NumbersAreConsecutive(r: Register, s: Series)
    requires Gapless(r)
    ensures forall n: nat :: Issued(r.invoices, s, n) <==> FIRST_NUMBER <= n < NextNumber(r.next, s)
    ensures forall i, j :: 0 <= i < j < |r.invoices| && r.invoices[i].series == s && r.invoices[j].series == s ==>
      r.invoices[i].number < r.invoices[j].number
  {
    NumbersAreBounded(r.invoices, s);
    forall n: nat | FIRST_NUMBER <= n < NextNumber(r.next, s) ensures Issued(r.invoices, s, n) {
      NumbersAreDense(r.invoices, s, n);
    }
    forall i, j | 0 <= i < j < |r.invoices| && r.invoices[i].series == s && r.invoices[j].series == s
      ensures r.invoices[i].number < r.invoices[j].number
    {
      NumberedPrefix(r.invoices, j);
      NumbersAreBounded(r.invoices[..j], s);
      assert r.invoices[..j][i] == r.invoices[i];
    }
  }

  // ----- the two write doors -----

  class InvoiceRegister {
    var next: map<Series, nat>
    var invoices: seq<Invoice>

    constructor ()
      ensures Contents() == Register(map[], [])
    {
      next, invoices := map[], [];
    }

    function Contents(): Register
      reads this
    {
      Register(next, invoices)
    }

    method Rollback(saved: Register)
      modifies this
      ensures Contents() == saved
    {
      next, invoices := saved.next, saved.invoices;
    }

    /** INSERT .. ON CONFLICT DO NOTHING, then UPDATE .. RETURNING next_number - 1. */
    method AllocateInvoiceNumber(s: Series) returns (number: nat)
      modifies this`next
      ensures number == NextNumber(old(next), s) && next == old(next)[s := number + 1]
    {
      if s !in next {
        next := next[s := FIRST_NUMBER];
      }
      next := next[s := next[s] + 1];
      number := next[s] - 1;
    }

    method CreateInvoice(o: OrderId, s: Series, lines: seq<Quotes.OrderLine>, a: Amounts)
      returns (r: Result<(), InvoiceError>)
      modifies this
      ensures match Issue(old(Contents()), o, s, lines, a)
        case Success(t) => r.Success? && Contents() == t
        case Failure(e) => r == Failure(e)
    {
      var valid := lines != [];
      var checked := [a.subtotal, a.discount, a.taxable, a.cgst, a.sgst, a.igst, a.total];
      for i := 0 to |checked|
        invariant valid <==> lines != [] && forall k :: 0 <= k < i ==> SafeAmount(checked[k])
      {
        valid := valid && SafeAmount(checked[i]);
      }
      assert valid <==> lines != [] && SafeAmounts(a) by {
        assert checked[0] == a.subtotal && checked[1] == a.discount && checked[2] == a.taxable;
        assert checked[3] == a.cgst && checked[4] == a.sgst && checked[5] == a.igst && checked[6] == a.total;
      }
      if s.doc == BillOfSupply && a.cgst + a.sgst + a.igst != 0 {
        valid := false;
      }
      if !valid {
        return Failure(InvalidInvoice);
      }
      var number := AllocateInvoiceNumber(s);
      // invoices_order_doc_key, checked when the row is inserted.
      if HasInvoice(invoices, o, s.doc) {
        return Failure(DuplicateInvoice);
      }
      invoices := invoices + [Invoice(o, s, number, lines, a)];
      r := Success(());
    }
  }
}
