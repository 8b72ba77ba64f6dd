/** generate_test_dict: the record set every benchmark transports. A Python
    dict is modelled as its items in insertion order, with distinct keys.
    The entry's "float" field is not modelled. */
module TestData {

  datatype Entry = Entry(value: int, squared: int, text: string)
  datatype Item = Item(key: string, entry: Entry)

  predicate DistinctKeys(d: seq<Item>) {
    forall i, j :: 0 <= i < j < |d| ==> d[i].key != d[j].key
  }

  /** A dict: its items in insertion order; no key occurs twice. */
  type Dict = d: seq<Item> | DistinctKeys(d) witness []

  const Digits: string := "0123456789"

  /** Python's str(n) for a non-negative int: decimal, no leading zeros. */
  function Decimal(n: nat): (s: string)
    ensures |s| >= 1
    ensures n < 10 <==> |s| == 1
    ensures forall k :: 0 <= k < |s| ==> '0' <= s[k] <= '9'
  {
    if n < 10 then [Digits[n]] else Decimal(n / 10) + [Digits[n % 10]]
  }

  /** The number a string of decimal digits denotes (most significant first). */
  function DecimalValue(s: string): nat
    requires forall k :: 0 <= k < |s| ==> '0' <= s[k] <= '9'
  {
    if s == [] then 0
    else DecimalValue(s[..|s| - 1]) * 10 + (s[|s| - 1] as int - '0' as int)
  }

  /** Reading back what Decimal writes gives the number. */
  lemma {:induction false} DecimalRoundTrip(n: nat)
    ensures DecimalValue(Decimal(n)) == n
  {
    if n >= 10 {
      var s := Decimal(n);
      assert s[..|s| - 1] == Decimal(n / 10);
      DecimalRoundTrip(n / 10);
    }
  }

  lemma DecimalInjective(a: nat, b: nat)
    ensures Decimal(a) == Decimal(b) <==> a == b
  {
    if Decimal(a) == Decimal(b) {
      DecimalRoundTrip(a);
      DecimalRoundTrip(b);
    }
  }

  function KeyOf(i: nat): string {
    "key_" + Decimal(i)
  }

  function EntryOf(i: nat): Entry {
    Entry(i, i * i, "test_value_" + Decimal(i))
  }

  lemma KeyOfInjective(a: nat, b: nat)
    ensures KeyOf(a) == KeyOf(b) <==> a == b
  {
    if KeyOf(a) == KeyOf(b) {
      assert KeyOf(a)[4..] == Decimal(a);
      assert KeyOf(b)[4..] == Decimal(b);
      DecimalInjective(a, b);
    }
  }

  /** {f"key_{i}": {...} for i in range(size)}: size entries (none for a
      negative size), the i-th keyed "key_i" and holding i, i*i and "test_value_i". */
  function GenerateTestDict(size: int): (d: Dict)
    ensures |d| == if size < 0 then 0 else size
    ensures forall i :: 0 <= i < |d| ==> d[i] == Item(KeyOf(i), EntryOf(i))
  {
    var n := if size < 0 then 0 else size;
    var items := seq(n, i requires 0 <= i => Item(KeyOf(i), EntryOf(i)));
    assert DistinctKeys(items) by {
      forall i, j | 0 <= i < j < n
        ensures items[i].key != items[j].key
      {
        KeyOfInjective(i, j);
      }
    }
    items
  }

  /** The dict as a mapping: looking up key_i for i < size finds entry i,
      and key_i for i >= size finds nothing. */
  lemma LookupGenerated(size: nat, i: nat)
    ensures (exists k :: 0 <= k < |GenerateTestDict(size)| && GenerateTestDict(size)[k].key == KeyOf(i)) <==> i < size
    ensures i < size ==> GenerateTestDict(size)[i].entry == EntryOf(i)
  {
    var d := GenerateTestDict(size);
    forall k | 0 <= k < |d| && d[k].key == KeyOf(i)
      ensures i < size
    {
      KeyOfInjective(k, i);
    }
    if i < size {
      assert d[i].key == KeyOf(i);
    }
  }
}
