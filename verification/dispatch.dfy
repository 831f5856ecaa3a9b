/** Invoke: routing a function name to its handler by exact string match. */
module Dispatch {
  import opened Types
  import Handlers
  import Query

  const InvalidFunctionName := "Invalid Smart Contract function name."

  /** The eight routed handlers. */
  datatype Handler =
    | InitLedgerHandler | RaiseInvoiceHandler | CreateInvoiceWithJsonInputHandler
    | QueryAllInvoicesHandler | GoodsReceiveHandler | BankPaymentToSupplierHandler
    | GetUsersHandler | OemRepaysToBankHandler

  /** The function name a handler is invoked by. */
  function Name(h: Handler): string
  {
    match h
    case InitLedgerHandler => "initLedger"
    case RaiseInvoiceHandler => "raiseInvoice"
    case CreateInvoiceWithJsonInputHandler => "createInvoiceWithJsonInput"
    case QueryAllInvoicesHandler => "queryAllInvoices"
    case GoodsReceiveHandler => "goodsReceive"
    case BankPaymentToSupplierHandler => "bankPaymentToSupplier"
    case GetUsersHandler => "getUsers"
    case OemRepaysToBankHandler => "oemRepaysToBank"
  }

  /** The if/else chain of Invoke: the handler whose name is exactly `name`,
      and none when no handler has that name. */
  function Route(name: string): (r: Option<Handler>)
    ensures r.Some? ==> Name(r.value) == name
    ensures r.None? ==> forall h: Handler :: Name(h) != name
  {
    if name == "initLedger" then Some(InitLedgerHandler)
    else if name == "raiseInvoice" then Some(RaiseInvoiceHandler)
    else if name == "createInvoiceWithJsonInput" then Some(CreateInvoiceWithJsonInputHandler)
    else if name == "queryAllInvoices" then Some(QueryAllInvoicesHandler)
    else if name == "goodsReceive" then Some(GoodsReceiveHandler)
    else if name == "bankPaymentToSupplier" then Some(BankPaymentToSupplierHandler)
    else if name == "getUsers" then Some(GetUsersHandler)
    else if name == "oemRepaysToBank" then Some(OemRepaysToBankHandler)
    else None
  }

  /** Every handler is reached by its own name. */
  lemma RouteName(h: Handler)
    ensures Route(Name(h)) == Some(h)
  {
  }

  /** What the routed handler does. initLedger and queryAllInvoices ignore the
      arguments; the scan is what the ledger yields to queryAllInvoices. No
      handler removes a key, a handler that does not succeed writes nothing,
      and the query, the broken JSON handler and the getUsers stub never write. */
  function Handle(h: Handler, m: WorldState, args: seq<string>, parse: string -> real,
                  scan: Query.RangeScan): (o: Handlers.Outcome)
    ensures m.Keys <= o.state.Keys
    ensures !o.response.Success? ==> o.state == m
    ensures h == QueryAllInvoicesHandler || h == CreateInvoiceWithJsonInputHandler ==> o.state == m
    ensures h == GetUsersHandler ==> o == Handlers.Outcome(Success(None), m)
  {
    match h
    case InitLedgerHandler => Handlers.InitLedger(m)
    case RaiseInvoiceHandler => Handlers.RaiseInvoice(m, args, parse)
    case CreateInvoiceWithJsonInputHandler => Handlers.CreateInvoiceWithJsonInput(m, args)
    case QueryAllInvoicesHandler => Handlers.Outcome(Query.QueryAllInvoices(scan), m)
    case GoodsReceiveHandler => Handlers.GoodsReceive(m, args)
    case BankPaymentToSupplierHandler => Handlers.BankPaymentToSupplier(m, args, parse)
    case GetUsersHandler => Handlers.Outcome(Handlers.GetUsers(args), m)
    case OemRepaysToBankHandler => Handlers.OemRepaysToBank(m, args, parse)
  }

  /** Invoke: an unknown name is an error that changes nothing; no handler
      removes a key; a call that does not succeed writes nothing; the read-only
      handlers and the broken JSON one never write; getUsers always answers
      Success(nil). */
  function Invoke(m: WorldState, name: string, args: seq<string>, parse: string -> real,
                  scan: Query.RangeScan): (o: Handlers.Outcome)
    ensures Route(name).None? ==> o == Handlers.Outcome(Error(InvalidFunctionName), m)
    ensures m.Keys <= o.state.Keys
    ensures !o.response.Success? ==> o.state == m
    ensures name == "queryAllInvoices" || name == "createInvoiceWithJsonInput" ==> o.state == m
    ensures name == "getUsers" ==> o == Handlers.Outcome(Success(None), m)
  {
    match Route(name)
    case None => Handlers.Outcome(Error(InvalidFunctionName), m)
    case Some(h) => Handle(h, m, args, parse, scan)
  }

  /** The key an invocation may write, when it writes. */
  function TargetKey(name: string, args: seq<string>): string
  {
    if name == "initLedger" then "INVOICE0" else if |args| > 0 then args[0] else ""
  }

  /** Every invocation changes the world state at most at one key. */
  lemma InvokeWritesAtMostOneKey(m: WorldState, name: string, args: seq<string>,
                                 parse: string -> real, scan: Query.RangeScan)
    ensures var o := Invoke(m, name, args, parse, scan);
            o.state == m || OnlyKeyWritten(m, o.state, TargetKey(name, args))
  {
    var o := Invoke(m, name, args, parse, scan);
    match Route(name)
    case None =>
    case Some(h) =>
      match h
      case InitLedgerHandler =>
        assert OnlyKeyWritten(m, o.state, "INVOICE0");
      case RaiseInvoiceHandler =>
        if |args| == 10 { assert OnlyKeyWritten(m, o.state, args[0]); }
      case CreateInvoiceWithJsonInputHandler =>
      case QueryAllInvoicesHandler =>
      case GoodsReceiveHandler =>
        if |args| == 2 { assert OnlyKeyWritten(m, o.state, args[0]); }
      case BankPaymentToSupplierHandler =>
        if |args| == 3 { assert OnlyKeyWritten(m, o.state, args[0]); }
      case GetUsersHandler =>
      case OemRepaysToBankHandler =>
        if |args| == 3 { assert OnlyKeyWritten(m, o.state, args[0]); }
  }
}
