/** Properties that relate several invocations of the chaincode's handlers. */
module Properties {
  import opened Types
  import opened Handlers
  import Dispatch
  import Query

  // Repeating a call.

  /** goodsReceive twice with the same arguments is goodsReceive once. */
  lemma GoodsReceiveIdempotent(m: WorldState, args: seq<string>)
    ensures GoodsReceive(GoodsReceive(m, args).state, args) == GoodsReceive(m, args)
  {
  }

  /** bankPaymentToSupplier twice with the same arguments is the same as once:
      the guard reads InvoiceAmount, which the payment does not change. */
  lemma BankPaymentIdempotent(m: WorldState, args: seq<string>, parse: string -> real)
    ensures BankPaymentToSupplier(BankPaymentToSupplier(m, args, parse).state, args, parse)
         == BankPaymentToSupplier(m, args, parse)
  {
  }

  /** oemRepaysToBank twice with the same arguments is the same as once: the
      guard reads PaidAmount, which the repayment does not change. */
  lemma OemRepaymentIdempotent(m: WorldState, args: seq<string>, parse: string -> real)
    ensures OemRepaysToBank(OemRepaysToBank(m, args, parse).state, args, parse)
         == OemRepaysToBank(m, args, parse)
  {
  }

  /** initLedger twice is initLedger once. */
  lemma InitLedgerIdempotent(m: WorldState)
    ensures InitLedger(InitLedger(m).state) == InitLedger(m)
  {
    var once := InitLedger(m).state;
    var twice := InitLedger(once).state;
    assert twice.Keys == once.Keys;
    assert forall k :: k in twice ==> twice[k] == once[k];
  }

  // Rejected guards and absent keys.

  /** A payment that is not below the invoice amount leaves an existing
      record, and so the whole world state, exactly as it was. */
  lemma BankPaymentRejectedKeepsState(m: WorldState, args: seq<string>, parse: string -> real)
    requires |args| == 3 && args[0] in m
    requires m[args[0]].invoiceAmount <= parse(args[2])
    ensures BankPaymentToSupplier(m, args, parse) == Outcome(Success(None), m)
  {
    var o := BankPaymentToSupplier(m, args, parse);
    assert o.state.Keys == m.Keys;
    assert forall k :: k in m ==> o.state[k] == m[k];
  }

  /** A repayment that is not above the paid amount leaves an existing record,
      and so the whole world state, exactly as it was. */
  lemma OemRepaymentRejectedKeepsState(m: WorldState, args: seq<string>, parse: string -> real)
    requires |args| == 3 && args[0] in m
    requires parse(args[2]) <= m[args[0]].paidAmount
    ensures OemRepaysToBank(m, args, parse) == Outcome(Success(None), m)
  {
    var o := OemRepaysToBank(m, args, parse);
    assert o.state.Keys == m.Keys;
    assert forall k :: k in m ==> o.state[k] == m[k];
  }

  /** goodsReceive on an absent key creates it: the zero record with only GR set. */
  lemma GoodsReceiveAbsentKey(m: WorldState, args: seq<string>)
    requires |args| == 2 && args[0] !in m
    ensures GoodsReceive(m, args).state[args[0]] == ZeroInvoice.(gr := args[1])
  {
    var after := GoodsReceive(m, args).state[args[0]];
    var expected := ZeroInvoice.(gr := args[1]);
    assert Get(after, GR) == Get(expected, GR);
    assert OnlyChanged(after, expected, {});
    FieldsDetermine(after, expected);
  }

  // The paid amount stays within the invoice amount.

  /** Every stored record's PaidAmount is at most its InvoiceAmount. */
  predicate PaidWithinInvoice(m: WorldState)
  {
    forall k :: k in m ==> m[k].paidAmount <= m[k].invoiceAmount
  }

  /** A record written back with its PaidAmount and InvoiceAmount untouched
      keeps the bound. */
  lemma KeepsAmounts(m: WorldState, after: WorldState, key: string, fields: set<Field>)
    requires PaidWithinInvoice(m)
    requires OnlyKeyWritten(m, after, key)
    requires PaidAmount !in fields && InvoiceAmount !in fields
    requires OnlyChanged(Lookup(m, key), after[key], fields)
    ensures PaidWithinInvoice(after)
  {
    var before := Lookup(m, key);
    assert Get(before, PaidAmount) == Get(after[key], PaidAmount);
    assert Get(before, InvoiceAmount) == Get(after[key], InvoiceAmount);
  }

  /** Every invocation keeps PaidAmount <= InvoiceAmount in every record,
      provided raiseInvoice is not handed a paid amount above the invoice
      amount: bankPaymentToSupplier only pays strictly below the invoice
      amount, and no other handler touches either amount of a stored record. */
  lemma InvokeKeepsPaidWithinInvoice(m: WorldState, name: string, args: seq<string>,
                                     parse: string -> real, scan: Query.RangeScan)
    requires PaidWithinInvoice(m)
    requires name == "raiseInvoice" && |args| == 10 ==> parse(args[7]) <= parse(args[3])
    ensures PaidWithinInvoice(Dispatch.Invoke(m, name, args, parse, scan).state)
  {
    var o := Dispatch.Invoke(m, name, args, parse, scan);
    match Dispatch.Route(name)
    case None =>
    case Some(h) =>
      match h
      case InitLedgerHandler =>
        forall k | k in o.state ensures o.state[k].paidAmount <= o.state[k].invoiceAmount {
          if k != "INVOICE0" { assert o.state[k] == m[k]; }
        }
      case RaiseInvoiceHandler =>
        if |args| == 10 {
          forall k | k in o.state ensures o.state[k].paidAmount <= o.state[k].invoiceAmount {
            if k != args[0] { assert o.state[k] == m[k]; }
          }
        }
      case CreateInvoiceWithJsonInputHandler =>
      case QueryAllInvoicesHandler =>
      case GoodsReceiveHandler =>
        if |args| == 2 { KeepsAmounts(m, o.state, args[0], {GR}); }
      case BankPaymentToSupplierHandler =>
        if |args| == 3 {
          var before := Lookup(m, args[0]);
          if before.invoiceAmount > parse(args[2]) {
            forall k | k in o.state ensures o.state[k].paidAmount <= o.state[k].invoiceAmount {
              if k != args[0] {
                assert o.state[k] == m[k];
              } else {
                assert Get(before, InvoiceAmount) == Get(o.state[k], InvoiceAmount);
              }
            }
          } else {
            KeepsAmounts(m, o.state, args[0], {});
          }
        }
      case GetUsersHandler =>
      case OemRepaysToBankHandler =>
        if |args| == 3 { KeepsAmounts(m, o.state, args[0], {Repaid, RepaymentAmount}); }
  }

  /** The intended rule that a repayment is never below the paid amount is not
      kept: a later payment below the invoice amount may overtake an earlier
      repayment. */
  lemma PaymentCanOvertakeRepayment(parse: string -> real)
    requires parse("800") == 800.0
    ensures var m := map["INV1" := Invoice("INV1", "OEM", "01/01/2019", 1000.0, "Parts",
                                           "Yes", "Yes", 500.0, "Yes", 600.0)];
            var o := BankPaymentToSupplier(m, ["INV1", "Yes", "800"], parse);
            && m["INV1"].repaymentAmount >= m["INV1"].paidAmount
            && o.state["INV1"].paidAmount > o.state["INV1"].repaymentAmount
  {
  }

  // Building a record with raiseInvoice.

  /** Every record can be stored by raiseInvoice: the arguments that describe
      it are read back into it, given amounts that parse back to themselves. */
  lemma RaiseInvoiceRoundTrip(inv: Invoice, format: real -> string, parse: string -> real)
    requires parse(format(inv.invoiceAmount)) == inv.invoiceAmount
    requires parse(format(inv.paidAmount)) == inv.paidAmount
    requires parse(format(inv.repaymentAmount)) == inv.repaymentAmount
    ensures InvoiceFromArgs(ArgsOf(inv, format), parse) == inv
  {
  }

  /** raiseInvoice loses no text argument: rendering the stored record gives
      back the ten arguments, given amounts whose rendering is the argument. */
  lemma RaiseInvoiceArgsRoundTrip(args: seq<string>, parse: string -> real, format: real -> string)
    requires |args| == 10
    requires format(parse(args[3])) == args[3]
    requires format(parse(args[7])) == args[7]
    requires format(parse(args[9])) == args[9]
    ensures ArgsOf(InvoiceFromArgs(args, parse), format) == args
  {
  }

  // A worked lifecycle.

  /** Raise INV1 for 1000, pay 500 (recorded), pay 2000 (ignored, not below
      1000), repay 300 (ignored, not above 500), repay 600 (recorded). */
  lemma PaymentLifecycle(m: WorldState, parse: string -> real, scan: Query.RangeScan)
    requires parse("1000") == 1000.0 && parse("0") == 0.0 && parse("500") == 500.0
    requires parse("2000") == 2000.0 && parse("300") == 300.0 && parse("600") == 600.0
    ensures
      var raise := ["INV1", "OEM", "01/01/2019", "1000", "Parts", "No", "No", "0", "No", "0"];
      var s1 := Dispatch.Invoke(m, "raiseInvoice", raise, parse, scan).state;
      var s2 := Dispatch.Invoke(s1, "bankPaymentToSupplier", ["INV1", "Yes", "500"], parse, scan).state;
      var s3 := Dispatch.Invoke(s2, "bankPaymentToSupplier", ["INV1", "Yes", "2000"], parse, scan).state;
      var s4 := Dispatch.Invoke(s3, "oemRepaysToBank", ["INV1", "Yes", "300"], parse, scan).state;
      var s5 := Dispatch.Invoke(s4, "oemRepaysToBank", ["INV1", "Yes", "600"], parse, scan).state;
      && s2["INV1"].paidAmount == 500.0 && s2["INV1"].isPaid == "Yes"
      && s3 == s2
      && s4 == s3
      && s5["INV1"] == s3["INV1"].(repaid := "Yes", repaymentAmount := 600.0)
  {
    var raise := ["INV1", "OEM", "01/01/2019", "1000", "Parts", "No", "No", "0", "No", "0"];
    var s1 := Dispatch.Invoke(m, "raiseInvoice", raise, parse, scan).state;
    assert s1["INV1"] == Invoice("INV1", "OEM", "01/01/2019", 1000.0, "Parts", "No", "No", 0.0, "No", 0.0);
    var s2 := Dispatch.Invoke(s1, "bankPaymentToSupplier", ["INV1", "Yes", "500"], parse, scan).state;
    assert s2["INV1"] == s1["INV1"].(paidAmount := 500.0, isPaid := "Yes");
    BankPaymentRejectedKeepsState(s2, ["INV1", "Yes", "2000"], parse);
    var s3 := Dispatch.Invoke(s2, "bankPaymentToSupplier", ["INV1", "Yes", "2000"], parse, scan).state;
    OemRepaymentRejectedKeepsState(s3, ["INV1", "Yes", "300"], parse);
  }
}
