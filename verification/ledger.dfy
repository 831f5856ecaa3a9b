/** The chaincode's handlers as they run: each reads and writes the ledger's
    world state step by step, and each is proved to have exactly the effect
    its function in `Handlers` (or `Query`, or `Dispatch`) describes. */
module Chaincode {
  import opened Types
  import Handlers
  import Query
  import Dispatch

  /** The world state one invocation sees and updates. The values are the
      decoded records; `parse` stands for `strconv.ParseFloat` with its error
      ignored. */
  class Ledger {
    var world: WorldState

    constructor (initial: WorldState)
      ensures world == initial
    {
      world := initial;
    }

    /** GetState then json.Unmarshal into Invoice{}, both errors ignored. */
    method GetInvoice(key: string) returns (invoice: Invoice)
      ensures key in world ==> invoice == world[key]
      ensures key !in world ==> invoice == ZeroInvoice
    {
      invoice := ZeroInvoice;
      if key in world {
        invoice := world[key];
      }
    }

    /** json.Marshal then PutState: an unconditional upsert. */
    method PutInvoice(key: string, invoice: Invoice)
      modifies this
      ensures world == old(world)[key := invoice]
    {
      world := world[key := invoice];
    }

    method Invoke(name: string, args: seq<string>, parse: string -> real, scan: Query.RangeScan)
      returns (r: Response)
      modifies this
      ensures Handlers.Outcome(r, world) == Dispatch.Invoke(old(world), name, args, parse, scan)
    {
      if name == "initLedger" {
        r := InitLedger();
      } else if name == "raiseInvoice" {
        r := RaiseInvoice(args, parse);
      } else if name == "createInvoiceWithJsonInput" {
        r := CreateInvoiceWithJsonInput(args);
      } else if name == "queryAllInvoices" {
        r := QueryAllInvoices(scan);
      } else if name == "goodsReceive" {
        r := GoodsReceive(args);
      } else if name == "bankPaymentToSupplier" {
        r := BankPaymentToSupplier(args, parse);
      } else if name == "getUsers" {
        r := GetUsers(args);
      } else if name == "oemRepaysToBank" {
        r := OemRepaysToBank(args, parse);
      } else {
        r := Error(Dispatch.InvalidFunctionName);
      }
    }

    method InitLedger() returns (r: Response)
      modifies this
      ensures Handlers.Outcome(r, world) == Handlers.InitLedger(old(world))
      ensures world == old(world)["INVOICE0" := Handlers.SampleInvoice]
    {
      var invoices := Handlers.SampleInvoices;
      var i := 0;
      while i < |invoices|
        invariant 0 <= i <= |invoices|
        invariant world == Handlers.Seeded(old(world), invoices, i)
      {
        PutInvoice(Handlers.KeyFor(i), invoices[i]);
        i := i + 1;
      }
      assert Handlers.KeyFor(0) == "INVOICE0";
      r := Success(None);
    }

    method RaiseInvoice(args: seq<string>, parse: string -> real) returns (r: Response)
      modifies this
      ensures Handlers.Outcome(r, world) == Handlers.RaiseInvoice(old(world), args, parse)
    {
      if |args| != 10 {
        return Error(Handlers.ExpectingFive);
      }
      var invoiceAmount := parse(args[3]);
      var paidAmount := parse(args[7]);
      var repaymentAmount := parse(args[9]);
      var invoice := Invoice(args[0], args[1], args[2], invoiceAmount, args[4],
                             args[5], args[6], paidAmount, args[8], repaymentAmount);
      PutInvoice(args[0], invoice);
      r := Success(None);
    }

    /** With one argument the read of args[1] is out of range, so the decode
        and the PutState after it are never reached. */
    method CreateInvoiceWithJsonInput(args: seq<string>) returns (r: Response)
      ensures Handlers.Outcome(r, world) == Handlers.CreateInvoiceWithJsonInput(world, args)
    {
      if |args| != 1 {
        return Error(Handlers.ExpectingFive);
      }
      r := Panic(Handlers.IndexOutOfRange(1, |args|));
    }

    /** Writes "[" then, for each scanned value, a "," when a member was
        already written, the value and the terminator; then "]". */
    method QueryAllInvoices(scan: Query.RangeScan) returns (r: Response)
      ensures r == Query.QueryAllInvoices(scan)
    {
      if scan.RangeError? {
        return Error(scan.message);
      }
      var entries := scan.entries;
      var buffer := "[";
      var memberWritten := false;
      var i := 0;
      while i < |entries|
        invariant 0 <= i <= |entries|
        invariant Query.FirstError(entries[..i]) == None
        invariant memberWritten <==> Query.Values(entries[..i]) != []
        invariant buffer == Query.Opened(Query.Values(entries[..i]))
      {
        match entries[i]
        case NextError(msg) =>
          Query.ScanErrorStep(entries, i);
          return Error(msg);
        case Value(v) =>
          Query.ScanValueStep(entries, i);
          Query.OpenedSnoc(Query.Values(entries[..i]), v);
          if memberWritten {
            buffer := buffer + ",";
          }
          buffer := buffer + v;
          buffer := buffer + Query.Terminator;
          memberWritten := true;
        i := i + 1;
      }
      assert entries[..i] == entries;
      buffer := buffer + "]";
      r := Success(Some(buffer));
    }

    method GoodsReceive(args: seq<string>) returns (r: Response)
      modifies this
      ensures Handlers.Outcome(r, world) == Handlers.GoodsReceive(old(world), args)
    {
      if |args| != 2 {
        return Error(Handlers.ExpectingTwo);
      }
      var invoice := GetInvoice(args[0]);
      invoice := invoice.(gr := args[1]);
      PutInvoice(args[0], invoice);
      r := Success(None);
    }

    method BankPaymentToSupplier(args: seq<string>, parse: string -> real) returns (r: Response)
      modifies this
      ensures Handlers.Outcome(r, world) == Handlers.BankPaymentToSupplier(old(world), args, parse)
    {
      if |args| != 3 {
        return Error(Handlers.ExpectingTwo);
      }
      var invoice := GetInvoice(args[0]);
      var paidAmount := parse(args[2]);
      if invoice.invoiceAmount > paidAmount {
        invoice := invoice.(paidAmount := paidAmount);
        invoice := invoice.(isPaid := args[1]);
      }
      PutInvoice(args[0], invoice);
      r := Success(None);
    }

    /** The identity lookup is disabled in the chaincode; the stub only succeeds. */
    method GetUsers(args: seq<string>) returns (r: Response)
      ensures r == Success(None)
    {
      r := Success(None);
    }

    method OemRepaysToBank(args: seq<string>, parse: string -> real) returns (r: Response)
      modifies this
      ensures Handlers.Outcome(r, world) == Handlers.OemRepaysToBank(old(world), args, parse)
    {
      if |args| != 3 {
        return Error(Handlers.ExpectingTwo);
      }
      var invoice := GetInvoice(args[0]);
      var repaymentAmount := parse(args[2]);
      if repaymentAmount > invoice.paidAmount {
        invoice := invoice.(repaid := args[1]);
        invoice := invoice.(repaymentAmount := repaymentAmount);
      }
      PutInvoice(args[0], invoice);
      r := Success(None);
    }
  }
}
