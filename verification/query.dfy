/** queryAllInvoices: the range scan it consumes and the array-shaped payload
    it builds from the scanned values. */
module Query {
  import opened Types

  /** The half-open key range the handler asks the ledger to scan. */
  const StartKey := "INVOICE0"
  const EndKey := "INVOICE999"

  /** What the handler writes after every scanned value. */
  const Terminator := "}\n\t"

  /** One step of the range iterator: a stored value, or the error `Next` returned. */
  datatype ScanEntry = Value(bytes: string) | NextError(message: string)

  /** The result of `GetStateByRange(StartKey, EndKey)`: the error it returned,
      or the entries its iterator yields, in key order. */
  datatype RangeScan = RangeError(message: string) | Range(entries: seq<ScanEntry>)

  // The range bounds below only document the key convention the handler
  // relies on: the scan itself is a parameter of `QueryAllInvoices`, so these
  // bounds do not constrain it. Since the order is byte-wise, "INVOICE999"
  // itself is outside the range and "INVOICE1000" is inside it.

  /** Go's byte-wise string order (for these keys every character is one byte). */
  predicate LexLess(a: string, b: string)
  {
    if a == [] then b != []
    else if b == [] then false
    else if a[0] != b[0] then a[0] < b[0]
    else LexLess(a[1..], b[1..])
  }

  /** The keys the scan covers: StartKey <= key < EndKey. */
  predicate InScanRange(key: string)
  {
    !LexLess(key, StartKey) && LexLess(key, EndKey)
  }

  /** The sum of the lengths of `xs`. */
  function TotalLength(xs: seq<string>): nat
  {
    if xs == [] then 0 else |xs[0]| + TotalLength(xs[1..])
  }

  /** How many separators sit between n members. */
  function Separators(n: nat): nat
  {
    if n == 0 then 0 else n - 1
  }

  function Commas(s: string): nat
  {
    multiset(s)[',']
  }

  /** The sum of the comma counts of `xs`. */
  function CommaTotal(xs: seq<string>): nat
  {
    if xs == [] then 0 else Commas(xs[0]) + CommaTotal(xs[1..])
  }

  /** `members` in order, consecutive ones separated by exactly one ",". */
  function Join(members: seq<string>): (r: string)
    ensures |r| == TotalLength(members) + Separators(|members|)
  {
    if |members| == 0 then ""
    else if |members| == 1 then members[0]
    else members[0] + "," + Join(members[1..])
  }

  /** Each value followed by the terminator. */
  function Members(values: seq<string>): (r: seq<string>)
    ensures |r| == |values|
  {
    seq(|values|, i requires 0 <= i < |values| => values[i] + Terminator)
  }

  /** The buffer once `values` are written and before the closing bracket. */
  function Opened(values: seq<string>): string
  {
    "[" + Join(Members(values))
  }

  /** The payload queryAllInvoices answers for the scanned values `values`. */
  function ArrayOf(values: seq<string>): string
  {
    Opened(values) + "]"
  }

  /** The first error the iterator reports, if any. */
  function FirstError(entries: seq<ScanEntry>): Option<string>
  {
    if entries == [] then None
    else match entries[0]
      case NextError(msg) => Some(msg)
      case Value(_) => FirstError(entries[1..])
  }

  /** The scanned values, in scan order. */
  function Values(entries: seq<ScanEntry>): seq<string>
  {
    if entries == [] then []
    else (match entries[0] case Value(v) => [v] case NextError(_) => []) + Values(entries[1..])
  }

  /** queryAllInvoices: the error of GetStateByRange or of the first failing
      Next, or else the array built from every scanned value. It succeeds
      exactly when the range opens and every Next succeeds, and never panics. */
  function QueryAllInvoices(scan: RangeScan): (r: Response)
    ensures !r.Panic?
    ensures scan.RangeError? ==> r == Error(scan.message)
    ensures r.Success? <==> scan.Range? && forall i :: 0 <= i < |scan.entries| ==> scan.entries[i].Value?
    ensures r.Success? ==> r.payload == Some(ArrayOf(Values(scan.entries)))
    ensures scan.Range? && r.Error? ==>
      exists i :: 0 <= i < |scan.entries| && scan.entries[i] == NextError(r.message)
        && forall j :: 0 <= j < i ==> scan.entries[j].Value?
  {
    match scan
    case RangeError(msg) => Error(msg)
    case Range(entries) =>
      FirstErrorSpec(entries);
      match FirstError(entries)
      case Some(msg) => Error(msg)
      case None => Success(Some(ArrayOf(Values(entries))))
  }

  /** No error is reported exactly when every entry is a value, and a
      reported error is that of the first entry that is not a value. */
  lemma {:induction false} FirstErrorSpec(entries: seq<ScanEntry>)
    ensures FirstError(entries).None? <==> forall i :: 0 <= i < |entries| ==> entries[i].Value?
    ensures FirstError(entries).Some? ==>
      exists i :: 0 <= i < |entries| && entries[i] == NextError(FirstError(entries).value)
        && forall j :: 0 <= j < i ==> entries[j].Value?
  {
    if entries != [] && entries[0].Value? {
      var rest := entries[1..];
      FirstErrorSpec(rest);
      if FirstError(rest).Some? {
        var i :| 0 <= i < |rest| && rest[i] == NextError(FirstError(rest).value)
          && forall j :: 0 <= j < i ==> rest[j].Value?;
        assert entries[i + 1] == rest[i];
        forall j | 0 <= j < i + 1 ensures entries[j].Value? {
          if j > 0 { assert entries[j] == rest[j - 1]; }
        }
      } else {
        forall j | 0 <= j < |entries| ensures entries[j].Value? {
          if j > 0 { assert entries[j] == rest[j - 1]; }
        }
      }
    } else if entries != [] {
      assert entries[0] == NextError(FirstError(entries).value);
    }
  }

  // Facts about the payload.

  /** Appending a member to a joined list appends one separator and the member. */
  lemma {:induction false} JoinSnoc(xs: seq<string>, x: string)
    ensures Join(xs + [x]) == if xs == [] then x else Join(xs) + "," + x
  {
    if |xs| >= 2 {
      assert (xs + [x])[1..] == xs[1..] + [x];
      JoinSnoc(xs[1..], x);
    } else if |xs| == 1 {
      assert (xs + [x])[1..] == [x];
    }
  }

  /** A joined list holds its members' commas plus one per separator. */
  lemma {:induction false} JoinCommas(members: seq<string>)
    ensures Commas(Join(members)) == CommaTotal(members) + Separators(|members|)
  {
    if |members| >= 2 {
      JoinCommas(members[1..]);
      assert multiset(members[0] + "," + Join(members[1..]))
        == multiset(members[0]) + multiset(",") + multiset(Join(members[1..]));
    }
  }

  lemma MembersSnoc(values: seq<string>, v: string)
    ensures Members(values + [v]) == Members(values) + [v + Terminator]
  {
    assert Members(values + [v])[..|values|] == Members(values);
  }

  lemma {:induction false} MembersLength(values: seq<string>)
    ensures TotalLength(Members(values)) == TotalLength(values) + |Terminator| * |values|
  {
    if values != [] {
      assert Members(values)[1..] == Members(values[1..]);
      MembersLength(values[1..]);
    }
  }

  lemma {:induction false} MembersCommas(values: seq<string>)
    ensures CommaTotal(Members(values)) == CommaTotal(values)
  {
    if values != [] {
      assert Members(values)[1..] == Members(values[1..]);
      assert multiset(values[0] + Terminator) == multiset(values[0]) + multiset(Terminator);
      MembersCommas(values[1..]);
    }
  }

  /** The payload is "[" and "]" around the members; with no value it is "[]";
      its length is the values' lengths plus the terminators, the separators
      and the brackets. */
  lemma ArrayShape(values: seq<string>)
    ensures ArrayOf(values)[0] == '[' && ArrayOf(values)[|ArrayOf(values)| - 1] == ']'
    ensures values == [] ==> ArrayOf(values) == "[]"
    ensures |ArrayOf(values)| == 2 + TotalLength(values) + 3 * |values| + Separators(|values|)
  {
    var j := Join(Members(values));
    var r := ArrayOf(values);
    assert Opened(values) == "[" + j;
    assert r == "[" + j + "]";
    assert |r| == |j| + 2;
    assert r[0] == '[';
    assert r[|r| - 1] == ']';
    MembersLength(values);
    if values == [] {
      assert j == "";
    }
  }

  /** n values give exactly n - 1 separating commas beyond those inside the
      values themselves (the terminator holds none). */
  lemma ArrayCommas(values: seq<string>)
    ensures Commas(ArrayOf(values)) == CommaTotal(values) + Separators(|values|)
  {
    var j := Join(Members(values));
    assert ArrayOf(values) == "[" + j + "]";
    assert multiset(ArrayOf(values)) == multiset("[") + multiset(j) + multiset("]");
    JoinCommas(Members(values));
    MembersCommas(values);
  }

  /** Scanning one more value extends the joined members by a separator
      (unless it is the first), the value and the terminator: scan order is
      kept. */
  lemma JoinMembersSnoc(values: seq<string>, v: string)
    ensures Join(Members(values + [v])) ==
      Join(Members(values)) + (if values == [] then "" else ",") + (v + Terminator)
  {
    MembersSnoc(values, v);
    var ms, last := Members(values), v + Terminator;
    JoinSnoc(ms, last);
    var sep := if values == [] then "" else ",";
    assert Join(ms + [last]) == Join(ms) + sep + last;
  }

  /** Writing one more value to the buffer: a "," unless it is the first,
      then the value, then the terminator. */
  lemma OpenedSnoc(values: seq<string>, v: string)
    ensures Opened(values + [v]) ==
      Opened(values) + (if values == [] then "" else ",") + v + Terminator
  {
    var sep := if values == [] then "" else ",";
    var j := Join(Members(values));
    JoinMembersSnoc(values, v);
    assert Opened(values + [v]) == "[" + (j + sep + (v + Terminator));
    ConcatAssoc("[", j, sep, v, Terminator);
  }

  lemma ConcatAssoc(a: string, b: string, c: string, d: string, e: string)
    ensures a + (b + c + (d + e)) == a + b + c + d + e
  {
  }

  /** One more entry that is a value: still no error, and one more value. */
  lemma ScanValueStep(entries: seq<ScanEntry>, i: nat)
    requires i < |entries| && entries[i].Value?
    requires FirstError(entries[..i]) == None
    ensures FirstError(entries[..i + 1]) == None
    ensures Values(entries[..i + 1]) == Values(entries[..i]) + [entries[i].bytes]
  {
    assert entries[..i + 1] == entries[..i] + [entries[i]];
    FirstErrorAppend(entries[..i], [entries[i]]);
    ValuesAppend(entries[..i], [entries[i]]);
    assert Values([entries[i]]) == [entries[i].bytes];
  }

  /** An error entry after only values is the first error of the whole scan. */
  lemma ScanErrorStep(entries: seq<ScanEntry>, i: nat)
    requires i < |entries| && entries[i].NextError?
    requires FirstError(entries[..i]) == None
    ensures FirstError(entries) == Some(entries[i].message)
  {
    assert entries == entries[..i] + entries[i..];
    FirstErrorAppend(entries[..i], entries[i..]);
  }

  lemma {:induction false} FirstErrorAppend(a: seq<ScanEntry>, b: seq<ScanEntry>)
    ensures FirstError(a + b) == if FirstError(a).Some? then FirstError(a) else FirstError(b)
  {
    if a != [] {
      assert (a + b)[1..] == a[1..] + b;
      FirstErrorAppend(a[1..], b);
    } else {
      assert a + b == b;
    }
  }

  lemma {:induction false} ValuesAppend(a: seq<ScanEntry>, b: seq<ScanEntry>)
    ensures Values(a + b) == Values(a) + Values(b)
  {
    if a != [] {
      assert (a + b)[1..] == a[1..] + b;
      ValuesAppend(a[1..], b);
    } else {
      assert a + b == b;
    }
  }

  /** The seeded key lies in the scanned range; "INVOICE999" itself does not,
      while a longer key such as "INVOICE1000" does. This documents the
      "INVOICE0".."INVOICE999" naming convention only; nothing here ties the
      bounds to the scan `QueryAllInvoices` is given. */
  lemma ScanRangeBounds()
    ensures InScanRange("INVOICE0")
    ensures !InScanRange("INVOICE999")
    ensures InScanRange("INVOICE1000")
  {
  }
}
