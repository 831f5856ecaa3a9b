/** The values the invoice chaincode works with: the Invoice record, the world
    state it is stored in, and the response an invocation returns. */
module Types {

  datatype Option<T> = None | Some(value: T)

  /** What one invocation hands back to the peer. `Success` and `Error` are
      `shim.Success` and `shim.Error`; a `nil` payload is `None`. `Panic` is a
      Go runtime panic: the invocation is aborted and none of its writes is
      committed. */
  datatype Response =
    | Success(payload: Option<string>)
    | Error(message: string)
    | Panic(message: string)

  /** The Invoice record. Amounts are float64 in the chaincode; here they are
      exact numbers, since the chaincode only compares and stores them. */
  datatype Invoice = Invoice(
    invoiceNumber: string,
    billedTo: string,
    invoiceDate: string,
    invoiceAmount: real,
    itemDescription: string,
    gr: string,
    isPaid: string,
    paidAmount: real,
    repaid: string,
    repaymentAmount: real)

  /** Go's zero value `Invoice{}`: what a handler is left holding when the key
      is absent and decoding the missing bytes fails. */
  const ZeroInvoice := Invoice("", "", "", 0.0, "", "", "", 0.0, "", 0.0)

  /** The ledger's world state, with every stored value already decoded. */
  type WorldState = map<string, Invoice>

  /** `GetState(key)` followed by `json.Unmarshal` into `Invoice{}` with the
      error ignored: the stored record, or the zero record for a missing key. */
  function Lookup(m: WorldState, key: string): (inv: Invoice)
    ensures key in m ==> inv == m[key]
    ensures key !in m ==> inv == ZeroInvoice
  {
    if key in m then m[key] else ZeroInvoice
  }

  /** The fields of an Invoice, so that "only these fields change" can be said. */
  datatype Field =
    | InvoiceNumber | BilledTo | InvoiceDate | InvoiceAmount | ItemDescription
    | GR | IsPaid | PaidAmount | Repaid | RepaymentAmount

  datatype FieldValue = Text(text: string) | Amount(amount: real)

  function Get(inv: Invoice, f: Field): FieldValue
  {
    match f
    case InvoiceNumber => Text(inv.invoiceNumber)
    case BilledTo => Text(inv.billedTo)
    case InvoiceDate => Text(inv.invoiceDate)
    case InvoiceAmount => Amount(inv.invoiceAmount)
    case ItemDescription => Text(inv.itemDescription)
    case GR => Text(inv.gr)
    case IsPaid => Text(inv.isPaid)
    case PaidAmount => Amount(inv.paidAmount)
    case Repaid => Text(inv.repaid)
    case RepaymentAmount => Amount(inv.repaymentAmount)
  }

  /** Every field outside `fields` has the same value in `before` and `after`. */
  predicate OnlyChanged(before: Invoice, after: Invoice, fields: set<Field>)
  {
    forall f: Field :: f !in fields ==> Get(before, f) == Get(after, f)
  }

  /** The fields determine the record: if no field differs, the records are equal. */
  lemma FieldsDetermine(a: Invoice, b: Invoice)
    requires OnlyChanged(a, b, {})
    ensures a == b
  {
    assert Get(a, InvoiceNumber) == Get(b, InvoiceNumber);
    assert Get(a, BilledTo) == Get(b, BilledTo);
    assert Get(a, InvoiceDate) == Get(b, InvoiceDate);
    assert Get(a, InvoiceAmount) == Get(b, InvoiceAmount);
    assert Get(a, ItemDescription) == Get(b, ItemDescription);
    assert Get(a, GR) == Get(b, GR);
    assert Get(a, IsPaid) == Get(b, IsPaid);
    assert Get(a, PaidAmount) == Get(b, PaidAmount);
    assert Get(a, Repaid) == Get(b, Repaid);
    assert Get(a, RepaymentAmount) == Get(b, RepaymentAmount);
  }

  /** `after` is `before` with at most the one key `key` written: no key is
      removed, no other key is added, and no other key's record changes. */
  predicate OnlyKeyWritten(before: WorldState, after: WorldState, key: string)
  {
    && after.Keys == before.Keys + {key}
    && forall k :: k in before && k != key ==> after[k] == before[k]
  }
}
