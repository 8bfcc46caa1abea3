/**
 * The small part of JavaScript's semantics that the portfolio page relies on:
 * values and their truthiness, the `||` operator, `<` between a number and a
 * value, the text of a thrown Error, and the order in which an ordinary
 * object lists its own string keys (section 10.1.11.1 of ECMA-262,
 * OrdinaryOwnPropertyKeys).
 */
module Js {

  datatype Option<+T> = None | Some(value: T)

  /** A JSON-ish JavaScript value as it reaches the page. Numbers are integers here; NaN and fractions are not modelled. */
  datatype JsValue = Undefined | Null | Bool(b: bool) | Num(n: int) | Str(s: string)

  /** ToBoolean (section 7.1.2 of ECMA-262) restricted to the values above. */
  predicate Truthy(v: JsValue) {
    match v
    case Undefined => false
    case Null => false
    case Bool(b) => b
    case Num(n) => n != 0
    case Str(s) => s != ""
  }

  /** `a || b`: the first operand when it is truthy, otherwise the second. */
  function Or(a: JsValue, b: JsValue): (r: JsValue)
    ensures Truthy(r) <==> Truthy(a) || Truthy(b)
    ensures r == a || r == b
    ensures Truthy(a) ==> r == a
    ensures !Truthy(a) ==> r == b
  {
    if Truthy(a) then a else b
  }

  // ---------------------------------------------------------------------------
  // Decimal digit strings

  predicate IsDigit(c: char) {
    '0' <= c <= '9'
  }

  predicate AllDigits(s: string) {
    forall i :: 0 <= i < |s| ==> IsDigit(s[i])
  }

  /** The value of a string of decimal digits, most significant first. */
  function DigitsValue(s: string): nat
    requires AllDigits(s)
  {
    if s == [] then 0
    else DigitsValue(s[..|s| - 1]) * 10 + (s[|s| - 1] as int - '0' as int)
  }

  /**
   * ToNumber (section 7.1.4 of ECMA-262) on the values above, None standing for
   * NaN. Strings are read as plain decimal digit strings; the empty string is 0.
   */
  function ToNumber(v: JsValue): (r: Option<int>)
    ensures v.Num? ==> r == Some(v.n)
    ensures r.None? <==> v.Undefined? || (v.Str? && v.s != "" && !AllDigits(v.s))
    ensures r.Some? && !v.Num? ==> 0 <= r.value
    ensures v == Null || v == Str("") || v == Bool(false) ==> r == Some(0)
    ensures v == Bool(true) ==> r == Some(1)
    ensures v.Str? && v.s != "" && AllDigits(v.s) ==> r == Some(DigitsValue(v.s))
  {
    match v
    case Undefined => None
    case Null => Some(0)
    case Bool(b) => Some(if b then 1 else 0)
    case Num(n) => Some(n)
    case Str(s) => if s == "" then Some(0) else if AllDigits(s) then Some(DigitsValue(s)) else None
  }

  /** `x < v` for a number x: false whenever v converts to NaN. */
  function LessThan(x: int, v: JsValue): (r: bool)
    ensures ToNumber(v).None? ==> !r
    ensures r <==> ToNumber(v).Some? && x < ToNumber(v).value
    ensures v.Num? ==> (r <==> x < v.n)
  {
    match ToNumber(v)
    case None => false
    case Some(n) => x < n
  }

  // ---------------------------------------------------------------------------
  // Thrown errors

  /** A thrown Error object, described by its `name` and `message` properties. */
  datatype JsError = JsError(name: string, message: string)

  /** `String(err)` for an Error: Error.prototype.toString, section 20.5.3.4 of ECMA-262. */
  function ErrorString(e: JsError): (r: string)
    ensures e.name != "" && e.message != "" ==>
      |r| == |e.name| + 2 + |e.message| && r[..|e.name|] == e.name && r[|e.name|..|e.name| + 2] == ": " && r[|e.name| + 2..] == e.message
    ensures e.name == "" ==> r == e.message
    ensures e.message == "" ==> r == e.name
    ensures r == "" <==> e.name == "" && e.message == ""
    ensures e.name != "" ==> r[..|e.name|] == e.name
    ensures e.message != "" ==> r[|r| - |e.message|..] == e.message
  {
    if e.name == "" then e.message
    else if e.message == "" then e.name
    else e.name + ": " + e.message
  }

  // ---------------------------------------------------------------------------
  // Property keys of an ordinary object

  /** The largest array index plus one: 2^32 - 1 (section 6.1.7 of ECMA-262). */
  const ArrayIndexBound: nat := 0xFFFF_FFFF

  /**
   * A string key that is an array index: the canonical decimal form (no
   * leading zero unless it is "0") of an integer below 2^32 - 1.
   */
  predicate IsArrayIndex(k: string) {
    && k != ""
    && AllDigits(k)
    && (k[0] != '0' || |k| == 1)
    && DigitsValue(k) < ArrayIndexBound
  }

  /** The names Object.prototype defines (sections 20.1.3 and B.2.2 of ECMA-262), which every `{}` inherits. */
  const ObjectPrototypeNames: set<string> := {
    "constructor", "hasOwnProperty", "isPrototypeOf", "propertyIsEnumerable",
    "toLocaleString", "toString", "valueOf", "__proto__",
    "__defineGetter__", "__defineSetter__", "__lookupGetter__", "__lookupSetter__"
  }

  predicate Distinct<T(==)>(s: seq<T>) {
    forall i, j :: 0 <= i < j < |s| ==> s[i] != s[j]
  }

  function IndexKeys(ks: seq<string>): (r: seq<string>)
    ensures forall k :: k in r ==> k in ks && IsArrayIndex(k)
  {
    if ks == [] then []
    else (if IsArrayIndex(ks[0]) then [ks[0]] else []) + IndexKeys(ks[1..])
  }

  function OtherKeys(ks: seq<string>): (r: seq<string>)
    ensures forall k :: k in r ==> k in ks && !IsArrayIndex(k)
  {
    if ks == [] then []
    else (if IsArrayIndex(ks[0]) then [] else [ks[0]]) + OtherKeys(ks[1..])
  }

  /** The numeric value of an array-index key. */
  function IndexValue(k: string): nat
    requires IsArrayIndex(k)
  {
    DigitsValue(k)
  }

  predicate SortedByIndex(s: seq<string>)
    requires forall k :: k in s ==> IsArrayIndex(k)
  {
    forall i, j :: 0 <= i < j < |s| ==> IndexValue(s[i]) <= IndexValue(s[j])
  }

  function InsertByIndex(k: string, s: seq<string>): (r: seq<string>)
    requires IsArrayIndex(k) && forall x :: x in s ==> IsArrayIndex(x)
    ensures multiset(r) == multiset(s) + multiset{k}
    ensures forall x :: x in r ==> x == k || x in s
  {
    if s == [] then [k]
    else if IndexValue(k) <= IndexValue(s[0]) then [k] + s
    else
      assert s == [s[0]] + s[1..];
      [s[0]] + InsertByIndex(k, s[1..])
  }

  function SortByIndex(s: seq<string>): (r: seq<string>)
    requires forall x :: x in s ==> IsArrayIndex(x)
    ensures multiset(r) == multiset(s)
    ensures forall x :: x in r ==> x in s
  {
    if s == [] then []
    else
      assert s == [s[0]] + s[1..];
      InsertByIndex(s[0], SortByIndex(s[1..]))
  }

  /**
   * OrdinaryOwnPropertyKeys for string keys given in creation order: the
   * array-index keys in ascending numeric order, then the other keys in the
   * order they were created.
   */
  function PropertyOrder(ks: seq<string>): (r: seq<string>)
    ensures multiset(r) == multiset(ks)
  {
    SplitKeysPermutes(ks);
    SortByIndex(IndexKeys(ks)) + OtherKeys(ks)
  }

  // ---------------------------------------------------------------------------
  // Lemmas about PropertyOrder

  lemma {:induction false} InsertByIndexSorted(k: string, s: seq<string>)
    requires IsArrayIndex(k) && forall x :: x in s ==> IsArrayIndex(x)
    requires SortedByIndex(s)
    ensures SortedByIndex(InsertByIndex(k, s))
  {
    if s != [] && IndexValue(k) > IndexValue(s[0]) {
      var t := InsertByIndex(k, s[1..]);
      InsertByIndexSorted(k, s[1..]);
      forall j | 0 <= j < |t| ensures IndexValue(s[0]) <= IndexValue(t[j]) {
        if t[j] != k {
          assert t[j] in t;
          var m :| 0 <= m < |s[1..]| && s[1..][m] == t[j];
          assert s[m + 1] == t[j];
        }
      }
    }
  }

  lemma {:induction false} SortByIndexSorted(s: seq<string>)
    requires forall x :: x in s ==> IsArrayIndex(x)
    ensures SortedByIndex(SortByIndex(s))
  {
    if s != [] {
      SortByIndexSorted(s[1..]);
      InsertByIndexSorted(s[0], SortByIndex(s[1..]));
    }
  }

  /** Array-index keys come first and in ascending numeric order. */
  lemma IndexKeysFirstAscending(ks: seq<string>)
    ensures forall k :: k in SortByIndex(IndexKeys(ks)) ==> IsArrayIndex(k)
    ensures SortedByIndex(SortByIndex(IndexKeys(ks)))
    ensures forall k :: k in OtherKeys(ks) ==> !IsArrayIndex(k)
  {
    SortByIndexSorted(IndexKeys(ks));
  }

  lemma {:induction false} SplitKeysPermutes(ks: seq<string>)
    ensures multiset(IndexKeys(ks)) + multiset(OtherKeys(ks)) == multiset(ks)
  {
    if ks != [] {
      SplitKeysPermutes(ks[1..]);
      assert ks == [ks[0]] + ks[1..];
    }
  }

  /** PropertyOrder lists every key exactly as often as the creation order does. */
  lemma PropertyOrderPermutes(ks: seq<string>)
    ensures multiset(PropertyOrder(ks)) == multiset(ks)
    ensures forall k :: k in PropertyOrder(ks) <==> k in ks
  {
    SplitKeysPermutes(ks);
    var r := PropertyOrder(ks);
    forall k ensures k in r <==> k in ks {
      assert k in r <==> k in multiset(r);
      assert k in ks <==> k in multiset(ks);
    }
  }

  /** Without array-index keys, PropertyOrder is exactly the creation order. */
  lemma {:induction false} PropertyOrderWithoutIndexKeys(ks: seq<string>)
    requires forall k :: k in ks ==> !IsArrayIndex(k)
    ensures PropertyOrder(ks) == ks
  {
    NoIndexKeys(ks);
  }

  lemma {:induction false} AllIndexKeys(ks: seq<string>)
    requires forall k :: k in ks ==> IsArrayIndex(k)
    ensures IndexKeys(ks) == ks && OtherKeys(ks) == []
  {
    if ks != [] {
      assert ks[0] in ks;
      AllIndexKeys(ks[1..]);
      assert ks == [ks[0]] + ks[1..];
    }
  }

  lemma KeysAppend(a: seq<string>, b: seq<string>)
    ensures IndexKeys(a + b) == IndexKeys(a) + IndexKeys(b)
    ensures OtherKeys(a + b) == OtherKeys(a) + OtherKeys(b)
  {
    IndexKeysAppend(a, b);
    OtherKeysAppend(a, b);
  }

  lemma {:induction false} IndexKeysAppend(a: seq<string>, b: seq<string>)
    ensures IndexKeys(a + b) == IndexKeys(a) + IndexKeys(b)
    decreases |a|
  {
    if a != [] {
      assert (a + b)[0] == a[0] && (a + b)[1..] == a[1..] + b;
      IndexKeysAppend(a[1..], b);
    } else {
      assert a + b == b;
    }
  }

  lemma {:induction false} OtherKeysAppend(a: seq<string>, b: seq<string>)
    ensures OtherKeys(a + b) == OtherKeys(a) + OtherKeys(b)
    decreases |a|
  {
    if a != [] {
      assert (a + b)[0] == a[0] && (a + b)[1..] == a[1..] + b;
      OtherKeysAppend(a[1..], b);
    } else {
      assert a + b == b;
    }
  }

  /** Sorting keys that are already in ascending order leaves them as they are. */
  lemma {:induction false} SortByIndexOfSorted(s: seq<string>)
    requires forall x :: x in s ==> IsArrayIndex(x)
    requires SortedByIndex(s)
    ensures SortByIndex(s) == s
  {
    if s != [] {
      var t := s[1..];
      SortedTail(s);
      SortByIndexOfSorted(t);
      InsertSmallest(s[0], t);
      assert [s[0]] + t == s;
    }
  }

  lemma SortedTail(s: seq<string>)
    requires s != [] && forall x :: x in s ==> IsArrayIndex(x)
    requires SortedByIndex(s)
    ensures forall x :: x in s[1..] ==> IsArrayIndex(x)
    ensures SortedByIndex(s[1..])
    ensures s[1..] != [] ==> IndexValue(s[0]) <= IndexValue(s[1..][0])
  {
    var t := s[1..];
    forall x | x in t ensures IsArrayIndex(x) {
      var m :| 0 <= m < |t| && t[m] == x;
      assert s[m + 1] == x;
    }
    forall i, j | 0 <= i < j < |t| ensures IndexValue(t[i]) <= IndexValue(t[j]) {
      assert t[i] == s[i + 1] && t[j] == s[j + 1];
    }
  }

  lemma InsertSmallest(k: string, t: seq<string>)
    requires IsArrayIndex(k) && forall x :: x in t ==> IsArrayIndex(x)
    requires t != [] ==> IndexValue(k) <= IndexValue(t[0])
    ensures InsertByIndex(k, t) == [k] + t
  {
  }

  /** Creating keys in the order an object lists them gives an object that lists them in the same order. */
  lemma PropertyOrderIdempotent(ks: seq<string>)
    ensures PropertyOrder(PropertyOrder(ks)) == PropertyOrder(ks)
  {
    var a, b := SortByIndex(IndexKeys(ks)), OtherKeys(ks);
    var p := PropertyOrder(ks);
    assert p == a + b;
    KeysAppend(a, b);
    AllIndexKeys(a);
    NoIndexKeys(b);
    assert IndexKeys(p) == a && OtherKeys(p) == b;
    SortByIndexSorted(IndexKeys(ks));
    SortByIndexOfSorted(a);
    assert PropertyOrder(p) == SortByIndex(a) + b;
  }

  lemma {:induction false} NoIndexKeys(ks: seq<string>)
    requires forall k :: k in ks ==> !IsArrayIndex(k)
    ensures IndexKeys(ks) == [] && OtherKeys(ks) == ks
  {
    if ks != [] {
      assert ks[0] in ks;
      NoIndexKeys(ks[1..]);
      assert ks == [ks[0]] + ks[1..];
    }
  }

  lemma DistinctConcat<T>(a: seq<T>, b: seq<T>)
    requires Distinct(a) && Distinct(b)
    requires forall x :: x in a ==> x !in b
    ensures Distinct(a + b)
  {
    forall i, j | 0 <= i < j < |a + b| ensures (a + b)[i] != (a + b)[j] {
      if i < |a| && j >= |a| {
        assert (a + b)[i] in a && (a + b)[j] == b[j - |a|];
      }
    }
  }

  lemma DistinctHead<T>(s: seq<T>)
    requires Distinct(s) && s != []
    ensures s[0] !in s[1..] && Distinct(s[1..])
  {
    forall j | 0 <= j < |s[1..]| ensures s[1..][j] != s[0] {
      assert s[1..][j] == s[j + 1];
    }
  }

  lemma {:induction false} FilterKeysDistinct(ks: seq<string>)
    requires Distinct(ks)
    ensures Distinct(IndexKeys(ks)) && Distinct(OtherKeys(ks))
  {
    if ks != [] {
      DistinctHead(ks);
      FilterKeysDistinct(ks[1..]);
      if IsArrayIndex(ks[0]) {
        DistinctConcat([ks[0]], IndexKeys(ks[1..]));
      } else {
        DistinctConcat([ks[0]], OtherKeys(ks[1..]));
      }
    }
  }

  lemma {:induction false} InsertByIndexDistinct(k: string, s: seq<string>)
    requires IsArrayIndex(k) && forall x :: x in s ==> IsArrayIndex(x)
    requires Distinct(s) && k !in s
    ensures Distinct(InsertByIndex(k, s))
  {
    if s == [] {
    } else if IndexValue(k) <= IndexValue(s[0]) {
      DistinctConcat([k], s);
    } else {
      var t := InsertByIndex(k, s[1..]);
      DistinctHead(s);
      assert k !in s[1..];
      InsertByIndexDistinct(k, s[1..]);
      assert s[0] != k;
      DistinctConcat([s[0]], t);
    }
  }

  lemma {:induction false} SortByIndexDistinct(s: seq<string>)
    requires forall x :: x in s ==> IsArrayIndex(x)
    requires Distinct(s)
    ensures Distinct(SortByIndex(s))
  {
    if s != [] {
      var t := SortByIndex(s[1..]);
      DistinctHead(s);
      SortByIndexDistinct(s[1..]);
      InsertByIndexDistinct(s[0], t);
    }
  }

  /** Listing keys in property order never repeats a key. */
  lemma PropertyOrderDistinct(ks: seq<string>)
    requires Distinct(ks)
    ensures Distinct(PropertyOrder(ks))
  {
    FilterKeysDistinct(ks);
    SortByIndexDistinct(IndexKeys(ks));
    DistinctConcat(SortByIndex(IndexKeys(ks)), OtherKeys(ks));
  }
}
