# Invoice ledger chaincode, modelled in Dafny

This project models `go/fabinvoice.go`, a Hyperledger Fabric chaincode that
keeps invoices in the ledger's world state. An invoice goes through a small
lifecycle. It is raised, its goods are received, the bank pays the supplier
and the OEM repays the bank. Every handler reads and writes records by key.
`Invoke` routes a function name to its handler.

The model has these parts:

- `Types` (types.dfy) holds the `Invoice` record and the `Response` an
  invocation returns (`Success`, `Error`, or a Go runtime `Panic`). It also
  holds the world state, a map from key to decoded record. `Lookup` reads a
  key the way the chaincode does: `GetState` and then `json.Unmarshal` into
  `Invoice{}`, with both errors ignored. A missing key gives the zero record.
- `Decimal` (decimal.dfy) holds `strconv.Itoa`. `initLedger` builds its key
  with it, and the panic message uses it.
- `Handlers` (handlers.dfy) gives each handler's effect as a function. The
  function takes the state before the call and the arguments. It returns the
  response and the state after the call.
- `Query` (query.dfy) holds `queryAllInvoices`: the range scan it consumes
  and the array-shaped payload it builds.
- `Dispatch` (dispatch.dfy) holds `Invoke`'s routing by exact name match.
- `Chaincode.Ledger` (ledger.dfy) is a class whose field `world` is the world
  state. It has one method per handler. Each method works step by step, like
  the Go code: read the record, set fields, write it back. For
  `initLedger` that is a counted loop. For `queryAllInvoices` it is a buffer
  loop with a "member already written" flag. Each method is proved to have
  exactly the effect of its function in `Handlers`, `Query` or `Dispatch`.
- `Properties` (properties.dfy) holds lemmas that relate several calls.

Two things are parameters. `strconv.ParseFloat` is the function `parse:
string -> real`, because its errors are ignored and its result is only
compared and stored. The range scan is the `RangeScan` value that
`GetStateByRange` and its iterator yield.

Some behaviour of the code is easy to miss, and the model keeps it:

- `createInvoiceWithJsonInput` accepts only one argument and then reads
  `args[1]`. So every call either fails the argument count or panics on the
  out-of-range index. The decode and the `PutState` after it never run.
- `goodsReceive`, `bankPaymentToSupplier` and `oemRepaysToBank` always write
  the record back. This happens even when the payment guard rejects the
  amount. For an absent key, they therefore create a record: the zero record,
  with the update applied if the guard allows it.
- The arity error messages are kept word for word. `raiseInvoice` checks for
  10 arguments but says "Expecting 5". The two payment handlers check for 3
  arguments but say "Expecting 2".
- The payment guard is strict (`InvoiceAmount > amount`), and so is the
  repayment guard (`amount > PaidAmount`). The payment guard keeps
  `PaidAmount <= InvoiceAmount`. Nothing keeps the repayment at or above the
  paid amount: a later payment can overtake it.

## Model

| member | source | states |
|---|---|---|
| `Types.FieldsDetermine` | go/fabinvoice.go:46-57 | An Invoice is determined by its ten fields: two records that agree on every field are equal |
| `Types.Lookup` | go/fabinvoice.go:205-208 | `GetState` then `json.Unmarshal` into `Invoice{}`, both errors ignored: a stored key reads back its record, and an absent key reads the zero record (the same rule at lines 223-228 and 276-280) |
| `Decimal.DecimalString` | go/fabinvoice.go:108 | `strconv.Itoa` of a non-negative number is a non-empty string of digits with no leading zero unless the number is 0 |
| `Decimal.DecimalRoundTrip` | go/fabinvoice.go:108 | Reading back the decimal digits of n gives n |
| `Decimal.DecimalStringInjective` | go/fabinvoice.go:108 | Distinct numbers give distinct decimal strings |
| `Handlers.KeyForInjective` | go/fabinvoice.go:108 | Distinct loop indices give distinct `"INVOICE"+strconv.Itoa(i)` keys |
| `Handlers.SeededWritesEach` | go/fabinvoice.go:104-111 | After n passes of the loop, the i-th record is stored at `"INVOICE"+i` for every i < n, and no later pass overwrites it. Exactly those keys are added, and every other key keeps its record |
| `Handlers.InitLedger` | go/fabinvoice.go:90-114 | initLedger answers Success(nil), stores the fixed sample record (Asus Co., 1000000, GR/IsPaid/Repaid "No", paid and repayment 0) at "INVOICE0", and writes no other key |
| `Handlers.RaiseInvoice` | go/fabinvoice.go:115-142 | Any count other than 10 is the "Expecting 5" error and nothing is written. With 10, the record built from the arguments (text fields args 0,1,2,4,5,6,8; amounts parsed from args 3,7,9) is upserted at args[0], and every other key keeps its record |
| `Handlers.CreateInvoiceWithJsonInput` | go/fabinvoice.go:144-159 | Never succeeds and never writes. Any count other than 1 is an error. Exactly 1 panics on the out-of-range `args[1]` before the decode and the write |
| `Handlers.GoodsReceive` | go/fabinvoice.go:199-215 | Any count other than 2 is an error with no write. With 2, the record at args[0] (the zero record if absent) gets GR = args[1], every other field stays, and no other key changes |
| `Handlers.BankPaymentToSupplier` | go/fabinvoice.go:217-238 | Any count other than 3 is an error with no write. With 3, PaidAmount := amount and IsPaid := args[1] when InvoiceAmount > amount (strict). Otherwise the record is written back unchanged. No other field or key changes |
| `Handlers.OemRepaysToBank` | go/fabinvoice.go:270-290 | Any count other than 3 is an error with no write. With 3, Repaid := args[1] and RepaymentAmount := amount when amount > PaidAmount (strict). Otherwise the record is unchanged. PaidAmount, IsPaid and other keys never change |
| `Handlers.GetUsers` | go/fabinvoice.go:241-268 | The stub answers Success(nil) whatever its arguments; the identity lookup is commented out |
| `Query.QueryAllInvoices` | go/fabinvoice.go:161-197 | Never panics. A range error is returned as it is. Success exactly when the range opens and every `Next` succeeds, and then the payload is the array of the scanned values in scan order. Otherwise the error is that of the first failing `Next`, with only values before it |
| `Query.FirstErrorSpec` | go/fabinvoice.go:177-181 | The iterator reports no error exactly when every entry is a value. A reported error is that of the first entry that is not a value |
| `Query.Join` | go/fabinvoice.go:183-189 | Joining the members with "," gives a string whose length is their total length plus one per separator |
| `Query.JoinSnoc` | go/fabinvoice.go:183-190 | Writing one more member appends a "," only if a member was already written, then the member |
| `Query.JoinCommas` | go/fabinvoice.go:183-185 | n joined members contain their own commas plus exactly n-1 separating commas |
| `Query.JoinMembersSnoc` | go/fabinvoice.go:183-190 | Each scanned value is appended in scan order, after one separator (none for the first) and followed by "}\n\t" |
| `Query.OpenedSnoc` | go/fabinvoice.go:183-190 | One loop pass extends the buffer by "," only when a member was already written, then the value, then "}\n\t" |
| `Query.ArrayShape` | go/fabinvoice.go:173-192 | The payload starts with "[" and ends with "]". An empty scan gives "[]". Its length is the values' lengths plus 3 per terminator, the separators and the two brackets |
| `Query.ArrayCommas` | go/fabinvoice.go:173-192 | A payload of n values holds exactly n-1 commas beyond those inside the values |
| `Query.ScanValueStep` | go/fabinvoice.go:177-191 | A successful `Next` after only successful ones adds its value to the scanned values and reports no error |
| `Query.ScanErrorStep` | go/fabinvoice.go:178-181 | The first failing `Next` is the error the handler returns |
| `Query.ScanRangeBounds` | go/fabinvoice.go:163-166 | The half-open range ["INVOICE0", "INVOICE999") contains "INVOICE0" and "INVOICE1000" but not "INVOICE999". This documents the key convention only: the scan is a parameter and is not bounded by it |
| `Dispatch.Route` | go/fabinvoice.go:64-88 | A name is routed to the handler of exactly that name. A name no handler has is routed nowhere |
| `Dispatch.RouteName` | go/fabinvoice.go:69-85 | Each of the eight handlers is reached by its own name |
| `Dispatch.Handle` | go/fabinvoice.go:69-85 | What each routed branch does: no handler removes a key, a handler that does not succeed writes nothing, queryAllInvoices and createInvoiceWithJsonInput never write, and getUsers answers Success(nil) with no change |
| `Dispatch.Invoke` | go/fabinvoice.go:64-88 | An unknown name gives "Invalid Smart Contract function name." and no change. No invocation removes a key. An invocation that does not succeed writes nothing. queryAllInvoices and createInvoiceWithJsonInput never write. getUsers always answers Success(nil) with no change |
| `Dispatch.InvokeWritesAtMostOneKey` | go/fabinvoice.go:64-290 | Every invocation leaves the state as it was or writes exactly one key: "INVOICE0" for initLedger, args[0] otherwise |
| `Chaincode.Ledger.GetInvoice` | go/fabinvoice.go:205-208 | Reading a key gives its stored record, or the zero record when the key is absent |
| `Chaincode.Ledger.PutInvoice` | go/fabinvoice.go:211-212 | Storing a record upserts that key and changes nothing else |
| `Chaincode.Ledger.Invoke` | go/fabinvoice.go:64-88 | The if/else chain has exactly the effect and response of `Dispatch.Invoke` |
| `Chaincode.Ledger.InitLedger` | go/fabinvoice.go:90-114 | The counted loop runs once and leaves the old state with only "INVOICE0" set to the sample record |
| `Chaincode.Ledger.RaiseInvoice` | go/fabinvoice.go:115-142 | Its new state and response are those of `Handlers.RaiseInvoice` |
| `Chaincode.Ledger.CreateInvoiceWithJsonInput` | go/fabinvoice.go:144-159 | Changes nothing. Its response is that of `Handlers.CreateInvoiceWithJsonInput` |
| `Chaincode.Ledger.QueryAllInvoices` | go/fabinvoice.go:161-197 | Changes nothing. Its answer is the range error, or the first `Next` error, or Success of "[" + the scanned values, in order, each followed by "}\n\t" and separated by single commas, + "]" |
| `Chaincode.Ledger.GoodsReceive` | go/fabinvoice.go:199-215 | Its new state and response are those of `Handlers.GoodsReceive` |
| `Chaincode.Ledger.BankPaymentToSupplier` | go/fabinvoice.go:217-238 | Its new state and response are those of `Handlers.BankPaymentToSupplier` |
| `Chaincode.Ledger.GetUsers` | go/fabinvoice.go:241-268 | Always answers Success(nil) and changes nothing |
| `Chaincode.Ledger.OemRepaysToBank` | go/fabinvoice.go:270-290 | Its new state and response are those of `Handlers.OemRepaysToBank` |
| `Properties.GoodsReceiveIdempotent` | go/fabinvoice.go:199-215 | goodsReceive twice with the same arguments equals goodsReceive once |
| `Properties.BankPaymentIdempotent` | go/fabinvoice.go:217-238 | bankPaymentToSupplier twice with the same arguments equals once |
| `Properties.OemRepaymentIdempotent` | go/fabinvoice.go:270-290 | oemRepaysToBank twice with the same arguments equals once |
| `Properties.InitLedgerIdempotent` | go/fabinvoice.go:90-114 | initLedger twice equals initLedger once |
| `Properties.BankPaymentRejectedKeepsState` | go/fabinvoice.go:229-235 | For an existing record, an amount not below InvoiceAmount leaves the whole state exactly as it was |
| `Properties.OemRepaymentRejectedKeepsState` | go/fabinvoice.go:281-287 | For an existing record, an amount not above PaidAmount leaves the whole state exactly as it was |
| `Properties.GoodsReceiveAbsentKey` | go/fabinvoice.go:205-212 | goodsReceive on an absent key stores the zero record with only GR set |
| `Properties.KeepsAmounts` | go/fabinvoice.go:209-212 | A write-back that leaves PaidAmount and InvoiceAmount untouched keeps PaidAmount <= InvoiceAmount everywhere |
| `Properties.InvokeKeepsPaidWithinInvoice` | go/fabinvoice.go:64-290 | If every record has PaidAmount <= InvoiceAmount, every invocation keeps that. The one exception is a raiseInvoice handed a paid amount above its invoice amount |
| `Properties.PaymentCanOvertakeRepayment` | go/fabinvoice.go:229-232 | A payment below the invoice amount can raise PaidAmount above an earlier RepaymentAmount: repayment >= payment is not kept |
| `Properties.RaiseInvoiceRoundTrip` | go/fabinvoice.go:122-136 | Any record is stored by raiseInvoice from its own ten arguments, given amounts that parse back to themselves |
| `Properties.RaiseInvoiceArgsRoundTrip` | go/fabinvoice.go:122-136 | Rendering the record raiseInvoice builds gives back its ten arguments: no argument is lost or misplaced |
| `Properties.PaymentLifecycle` | go/fabinvoice.go:115-290 | Raise INV1 for 1000. Pay 500: recorded. Pay 2000: no change. Repay 300: no change. Repay 600: recorded |

## Left out

- JSON encoding and decoding (`json.Marshal`/`json.Unmarshal`) are an external library. A stored value is the decoded record itself. Missing bytes decode to the zero record. The byte format is not modelled.
- The Fabric shim is the external runtime. `GetFunctionAndParameters` becomes the name and argument parameters of `Invoke`. `GetState`/`PutState` become map reads and writes; their error returns are ignored by the chaincode. The range iterator's `Close` has no effect on the result.
- `Chaincode.Ledger.QueryAllInvoices`: takes the scan as a parameter, so its contract does not tie the scanned values to the stored records of the keys in ["INVOICE0", "INVOICE999"). Which keys the range returns is the ledger's contract, and the byte encoding of the records is not modelled.
- Floating point: amounts are exact reals, and `strconv.ParseFloat` is an arbitrary function `parse`. A syntax error makes it return 0. An overflow such as "1e400" makes it return ±Inf, and it accepts "Inf" and "NaN" without error. The model assumes every amount is finite, so `json.Marshal` never fails and the write-back always stores the record. With a NaN or infinite amount, `Marshal` fails at lines 138, 234 and 286, and `PutState(args[0], nil)` stores no record. Fabric treats an empty value as a deletion. So the rows for `Handlers.RaiseInvoice` (the record is upserted) and `Dispatch.Invoke` (no invocation removes a key) hold only for finite amounts. IEEE rounding is not modelled either.
- Byte strings: Go's `[]byte` and `string` values are modelled as sequences of Unicode characters. This covers the arguments, the keys and the scanned values. No encoding is modelled.
- `Init`, `main` and `shim.Start` are lifecycle with no logic. The `fmt` logging is output only.
- The commented-out identity lookup in `getUsers` does not run.
- The decode and write at lines 150-157 of `createInvoiceWithJsonInput` cannot be reached, so they are not modelled.
- Concurrency between invocations, transaction isolation and consensus belong to the host ledger.
