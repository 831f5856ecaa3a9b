/** What each chaincode handler does to the world state and what it answers,
    as functions of the state before the call and the call's arguments. The
    methods of `Chaincode.Ledger` are proved to do exactly this. */
module Handlers {
  import opened Types
  import Decimal

  /** One handler's effect: its response and the world state afterwards. */
  datatype Outcome = Outcome(response: Response, state: WorldState)

  // The error messages, word for word; the counts they name are not the
  // counts the handlers check.
  const ExpectingFive := "Incorrect number of arguments. Expecting 5"
  const ExpectingTwo := "Incorrect number of arguments. Expecting 2"

  /** The message of Go's runtime panic for `args[index]` on `length` arguments. */
  function IndexOutOfRange(index: nat, length: nat): string
  {
    "runtime error: index out of range [" + Decimal.DecimalString(index)
      + "] with length " + Decimal.DecimalString(length)
  }

  /** The key `initLedger` writes the i-th sample under: "INVOICE" + strconv.Itoa(i). */
  function KeyFor(i: nat): string
  {
    "INVOICE" + Decimal.DecimalString(i)
  }

  const SampleInvoice := Invoice("INVOICE0", "Asus Co.", "02/07/2019", 1000000.0, "Laptops",
                                 "No", "No", 0.0, "No", 0.0)

  /** The records `initLedger` seeds, in order. */
  const SampleInvoices := [SampleInvoice]

  /** `m` after the first `n` records of `invoices` are written, the i-th at KeyFor(i). */
  function Seeded(m: WorldState, invoices: seq<Invoice>, n: nat): WorldState
    requires n <= |invoices|
  {
    if n == 0 then m else Seeded(m, invoices, n - 1)[KeyFor(n - 1) := invoices[n - 1]]
  }

  /** The keys of the first `n` records the seeding loop writes. */
  function SeededKeys(n: nat): set<string>
  {
    set i: nat | i < n :: KeyFor(i)
  }

  /** Distinct loop indices give distinct keys. */
  lemma KeyForInjective(i: nat, j: nat)
    requires KeyFor(i) == KeyFor(j)
    ensures i == j
  {
    assert KeyFor(i)[7..] == Decimal.DecimalString(i);
    assert KeyFor(j)[7..] == Decimal.DecimalString(j);
    Decimal.DecimalStringInjective(i, j);
  }

  lemma SeededKeysStep(n: nat)
    requires n > 0
    ensures SeededKeys(n) == SeededKeys(n - 1) + {KeyFor(n - 1)}
  {
    forall k | k in SeededKeys(n) ensures k in SeededKeys(n - 1) + {KeyFor(n - 1)} {
      var i: nat :| i < n && KeyFor(i) == k;
      if i < n - 1 { assert KeyFor(i) in SeededKeys(n - 1); }
    }
  }

  /** After n passes of the seeding loop the i-th record sits at KeyFor(i) for
      every i < n (no later pass overwrites an earlier one), exactly those keys
      were added, and every other key keeps its record. */
  lemma {:induction false} SeededWritesEach(m: WorldState, invoices: seq<Invoice>, n: nat)
    requires n <= |invoices|
    ensures Seeded(m, invoices, n).Keys == m.Keys + SeededKeys(n)
    ensures forall i: nat :: i < n ==> Seeded(m, invoices, n)[KeyFor(i)] == invoices[i]
    ensures forall k :: k in m && k !in SeededKeys(n) ==> Seeded(m, invoices, n)[k] == m[k]
  {
    if n > 0 {
      SeededWritesEach(m, invoices, n - 1);
      SeededKeysStep(n);
      var prev, key := Seeded(m, invoices, n - 1), KeyFor(n - 1);
      var next := prev[key := invoices[n - 1]];
      assert Seeded(m, invoices, n) == next;
      forall i: nat | i < n ensures next[KeyFor(i)] == invoices[i] {
        if i < n - 1 && KeyFor(i) == key {
          KeyForInjective(i, n - 1);
        }
      }
    }
  }

  /** initLedger: writes the one sample record at "INVOICE0" and nothing else. */
  function InitLedger(m: WorldState): (o: Outcome)
    ensures o.response == Success(None)
    ensures OnlyKeyWritten(m, o.state, "INVOICE0")
    ensures o.state["INVOICE0"] == SampleInvoice
  {
    assert KeyFor(0) == "INVOICE0";
    assert Seeded(m, SampleInvoices, 1) == m["INVOICE0" := SampleInvoice];
    Outcome(Success(None), Seeded(m, SampleInvoices, |SampleInvoices|))
  }

  /** The record raiseInvoice builds from its ten positional arguments. */
  function InvoiceFromArgs(args: seq<string>, parse: string -> real): Invoice
    requires |args| == 10
  {
    Invoice(args[0], args[1], args[2], parse(args[3]), args[4],
            args[5], args[6], parse(args[7]), args[8], parse(args[9]))
  }

  /** The ten arguments that describe `inv`, amounts rendered by `format`. */
  function ArgsOf(inv: Invoice, format: real -> string): (args: seq<string>)
    ensures |args| == 10
  {
    [inv.invoiceNumber, inv.billedTo, inv.invoiceDate, format(inv.invoiceAmount),
     inv.itemDescription, inv.gr, inv.isPaid, format(inv.paidAmount),
     inv.repaid, format(inv.repaymentAmount)]
  }

  /** raiseInvoice: any argument count but 10 is an error with no write; with
      10 the record built from them is upserted at args[0] and no other key
      changes. */
  function RaiseInvoice(m: WorldState, args: seq<string>, parse: string -> real): (o: Outcome)
    ensures |args| != 10 ==> o == Outcome(Error(ExpectingFive), m)
    ensures |args| == 10 ==>
      && o.response == Success(None)
      && OnlyKeyWritten(m, o.state, args[0])
      && o.state[args[0]].invoiceNumber == args[0]
      && o.state[args[0]] == InvoiceFromArgs(args, parse)
  {
    if |args| != 10 then Outcome(Error(ExpectingFive), m)
    else Outcome(Success(None), m[args[0] := InvoiceFromArgs(args, parse)])
  }

  /** createInvoiceWithJsonInput: it never writes. Any count but 1 is an error;
      with exactly 1 the read of args[1] panics before the decode and the write. */
  function CreateInvoiceWithJsonInput(m: WorldState, args: seq<string>): (o: Outcome)
    ensures o.state == m
    ensures o.response.Error? <==> |args| != 1
    ensures o.response.Panic? <==> |args| == 1
    ensures !o.response.Success?
  {
    if |args| != 1 then Outcome(Error(ExpectingFive), m)
    else Outcome(Panic(IndexOutOfRange(1, |args|)), m)
  }

  /** goodsReceive: any count but 2 is an error with no write; with 2 only the
      GR field of the record at args[0] (the zero record if absent) becomes
      args[1], and no other key changes. */
  function GoodsReceive(m: WorldState, args: seq<string>): (o: Outcome)
    ensures |args| != 2 ==> o == Outcome(Error(ExpectingTwo), m)
    ensures |args| == 2 ==>
      && o.response == Success(None)
      && OnlyKeyWritten(m, o.state, args[0])
      && o.state[args[0]].gr == args[1]
      && OnlyChanged(Lookup(m, args[0]), o.state[args[0]], {GR})
  {
    if |args| != 2 then Outcome(Error(ExpectingTwo), m)
    else
      var invoice := Lookup(m, args[0]).(gr := args[1]);
      Outcome(Success(None), m[args[0] := invoice])
  }

  /** bankPaymentToSupplier: any count but 3 is an error with no write; with 3
      the record at args[0] gets PaidAmount := amount and IsPaid := args[1]
      when its InvoiceAmount is strictly greater than the amount, and is
      written back unchanged otherwise; no other field or key changes. */
  function BankPaymentToSupplier(m: WorldState, args: seq<string>, parse: string -> real): (o: Outcome)
    ensures |args| != 3 ==> o == Outcome(Error(ExpectingTwo), m)
    ensures |args| == 3 ==>
      && o.response == Success(None)
      && OnlyKeyWritten(m, o.state, args[0])
      && OnlyChanged(Lookup(m, args[0]), o.state[args[0]], {PaidAmount, IsPaid})
    ensures |args| == 3 && Lookup(m, args[0]).invoiceAmount > parse(args[2]) ==>
      o.state[args[0]].paidAmount == parse(args[2]) && o.state[args[0]].isPaid == args[1]
    ensures |args| == 3 && !(Lookup(m, args[0]).invoiceAmount > parse(args[2])) ==>
      o.state[args[0]] == Lookup(m, args[0])
  {
    if |args| != 3 then Outcome(Error(ExpectingTwo), m)
    else
      var amount := parse(args[2]);
      var invoice := Lookup(m, args[0]);
      var updated := if invoice.invoiceAmount > amount
                     then invoice.(paidAmount := amount, isPaid := args[1])
                     else invoice;
      Outcome(Success(None), m[args[0] := updated])
  }

  /** oemRepaysToBank: any count but 3 is an error with no write; with 3 the
      record at args[0] gets Repaid := args[1] and RepaymentAmount := amount
      when the amount is strictly greater than its PaidAmount, and is written
      back unchanged otherwise; PaidAmount, IsPaid and every other key stay. */
  function OemRepaysToBank(m: WorldState, args: seq<string>, parse: string -> real): (o: Outcome)
    ensures |args| != 3 ==> o == Outcome(Error(ExpectingTwo), m)
    ensures |args| == 3 ==>
      && o.response == Success(None)
      && OnlyKeyWritten(m, o.state, args[0])
      && OnlyChanged(Lookup(m, args[0]), o.state[args[0]], {Repaid, RepaymentAmount})
    ensures |args| == 3 && parse(args[2]) > Lookup(m, args[0]).paidAmount ==>
      o.state[args[0]].repaid == args[1] && o.state[args[0]].repaymentAmount == parse(args[2])
    ensures |args| == 3 && !(parse(args[2]) > Lookup(m, args[0]).paidAmount) ==>
      o.state[args[0]] == Lookup(m, args[0])
  {
    if |args| != 3 then Outcome(Error(ExpectingTwo), m)
    else
      var amount := parse(args[2]);
      var invoice := Lookup(m, args[0]);
      var updated := if amount > invoice.paidAmount
                     then invoice.(repaid := args[1], repaymentAmount := amount)
                     else invoice;
      Outcome(Success(None), m[args[0] := updated])
  }

  /** getUsers: a stub that succeeds with no payload and touches nothing. */
  function GetUsers(args: seq<string>): (r: Response)
    ensures r == Success(None)
  {
    Success(None)
  }
}
