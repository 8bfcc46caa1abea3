/**
 * Grouping skills by category, as both copies of the page do it: starting from
 * an empty object, each skill in input order is appended to the array stored
 * under its category, an array being created first when the lookup finds a
 * falsy value; the groups are then listed with Object.entries.
 *
 * The specification is independent of the fold: the groups are keyed by the
 * distinct categories (listed in property order), and the group of a key is
 * the stable filter of the input by that key.
 */
module Grouping {
  import opened Js
  import opened Content

  datatype Entry = Entry(key: string, list: seq<Skill>)

  /** What grouping yields: the entries, or the TypeError thrown when `push` is looked up on a non-array. */
  datatype GroupResult = Entries(entries: seq<Entry>) | PushNotAFunction(key: string)

  // ---------------------------------------------------------------------------
  // Specification

  function Categories(items: seq<Skill>): (r: seq<string>)
    ensures |r| == |items|
    ensures forall i :: 0 <= i < |items| ==> r[i] == items[i].category
  {
    seq(|items|, i requires 0 <= i < |items| => items[i].category)
  }

  /** The distinct elements of cs, each where it first occurs. */
  function FirstOccurrences(cs: seq<string>): (r: seq<string>)
    ensures Distinct(r)
    ensures forall c :: c in r <==> c in cs
  {
    if cs == [] then []
    else
      var p, c := FirstOccurrences(cs[..|cs| - 1]), cs[|cs| - 1];
      assert cs == cs[..|cs| - 1] + [c];
      if c in p then p
      else
        DistinctConcat(p, [c]);
        p + [c]
  }

  /** The skills of category c, in input order. */
  function Filter(items: seq<Skill>, c: string): (r: seq<Skill>)
    ensures forall s :: s in r ==> s in items && s.category == c
  {
    if items == [] then []
    else
      var last := items[|items| - 1];
      Filter(items[..|items| - 1], c) + (if last.category == c then [last] else [])
  }

  /** The keys of the grouping object, in the order Object.entries lists them. */
  function GroupKeys(items: seq<Skill>): seq<string> {
    PropertyOrder(FirstOccurrences(Categories(items)))
  }

  /** The intended grouping: one entry per distinct category, holding that category's skills. */
  function Grouped(items: seq<Skill>): (r: seq<Entry>)
    ensures |r| == |GroupKeys(items)|
    ensures forall i :: 0 <= i < |r| ==> r[i] == Entry(GroupKeys(items)[i], Filter(items, GroupKeys(items)[i]))
  {
    var ks := GroupKeys(items);
    seq(|ks|, i requires 0 <= i < |ks| => Entry(ks[i], Filter(items, ks[i])))
  }

  /** The first category, in input order, that names a property every `{}` inherits. */
  function FirstInheritedKey(items: seq<Skill>): (r: Option<string>)
    ensures r.Some? ==> r.value in ObjectPrototypeNames
    ensures r.None? <==> forall j :: 0 <= j < |items| ==> items[j].category !in ObjectPrototypeNames
    ensures r.Some? ==> exists j :: (0 <= j < |items| && items[j].category == r.value &&
      forall i :: 0 <= i < j ==> items[i].category !in ObjectPrototypeNames)
  {
    if items == [] then None
    else if items[0].category in ObjectPrototypeNames then Some(items[0].category)
    else FirstInheritedKey(items[1..])
  }

  /**
   * The grouping as written, on an object that inherits from Object.prototype:
   * at the first skill whose category names an inherited property, `acc[k] || []`
   * yields the inherited (truthy) value, which has no `push`, and the call throws.
   */
  function GroupedAsWritten(items: seq<Skill>): (r: GroupResult)
    ensures r.PushNotAFunction? <==> exists j :: 0 <= j < |items| && items[j].category in ObjectPrototypeNames
    ensures r.PushNotAFunction? ==> r.key in ObjectPrototypeNames
    ensures r.Entries? ==> r.entries == Grouped(items)
  {
    match FirstInheritedKey(items)
    case Some(k) => PushNotAFunction(k)
    case None => Entries(Grouped(items))
  }

  // ---------------------------------------------------------------------------
  // The accumulator object

  /** What `acc[k]` finds: an own array, an inherited non-array property, or nothing. */
  datatype Slot = OwnList(list: seq<Skill>) | InheritedValue | Absent

  /**
   * The object the fold mutates. `keys` records the own properties in creation
   * order, `props` their arrays. With `inherits` the object is `{}`, whose
   * prototype is Object.prototype; without it, a prototype-less object.
   */
  class Accumulator {
    var keys: seq<string>
    var props: map<string, seq<Skill>>
    const inherits: bool

    ghost predicate Valid()
      reads this
    {
      Distinct(keys) && forall k :: k in props <==> k in keys
    }

    constructor (inherits: bool)
      ensures Valid() && this.inherits == inherits
      ensures keys == [] && props == map[]
    {
      keys, props := [], map[];
      this.inherits := inherits;
    }

    /** Property lookup `acc[k]`: own properties first, then the prototype. */
    function Lookup(k: string): (r: Slot)
      reads this
      ensures r.OwnList? <==> k in props
      ensures r.OwnList? ==> r.list == props[k]
      ensures r.InheritedValue? <==> k !in props && inherits && k in ObjectPrototypeNames
    {
      if k in props then OwnList(props[k])
      else if inherits && k in ObjectPrototypeNames then InheritedValue
      else Absent
    }

    /**
     * One step of the fold. When `acc[k]` is inherited, the assignment keeps
     * that value and `push` throws; ok is then false and the object, which the
     * exception abandons, is left as it was.
     */
    method Push(s: Skill) returns (ok: bool)
      requires Valid()
      modifies this
      ensures Valid()
      ensures ok <==> s.category in old(props) || !inherits || s.category !in ObjectPrototypeNames
      ensures ok && s.category in old(props) ==>
        keys == old(keys) && props == old(props)[s.category := old(props)[s.category] + [s]]
      ensures ok && s.category !in old(props) ==>
        keys == old(keys) + [s.category] && props == old(props)[s.category := [s]]
      ensures !ok ==> keys == old(keys) && props == old(props)
    {
      var k := s.category;
      match Lookup(k)
      case InheritedValue =>
        ok := false;
      case OwnList(list) =>
        props := props[k := list + [s]];
        ok := true;
      case Absent =>
        DistinctConcat(keys, [k]);
        keys, props := keys + [k], props[k := [s]];
        ok := true;
    }

    /** Object.entries(acc): own keys in property order with their arrays. */
    function Entries(): (r: seq<Entry>)
      reads this
      requires Valid()
      ensures |r| == |PropertyOrder(keys)|
      ensures forall i :: 0 <= i < |r| ==> r[i].key == PropertyOrder(keys)[i] && r[i].list == props[r[i].key]
    {
      var ks, p := PropertyOrder(keys), props;
      PropertyOrderPermutes(keys);
      seq(|ks|, i requires 0 <= i < |ks| && ks[i] in p => Entry(ks[i], p[ks[i]]))
    }
  }

  /**
   * The fold over items. With `inherits` (the object `{}` both copies of the
   * page start from) it is the behaviour as written; without it, the intended one.
   */
  method Group(items: seq<Skill>, inherits: bool) returns (r: GroupResult)
    ensures inherits ==> r == GroupedAsWritten(items)
    ensures !inherits ==> r == Entries(Grouped(items))
  {
    var acc := new Accumulator(inherits);
    var i := 0;
    while i < |items|
      invariant 0 <= i <= |items|
      invariant acc.Valid() && acc.inherits == inherits
      invariant FoldInvariant(items, i, acc.keys, acc.props, inherits)
    {
      var keys0, props0 := acc.keys, acc.props;
      var ok := acc.Push(items[i]);
      if !ok {
        ThrowsAt(items, i);
        return PushNotAFunction(items[i].category);
      }
      FoldStep(items, i, keys0, props0, acc.keys, acc.props, inherits);
      i := i + 1;
    }
    assert items[..i] == items;
    var entries := acc.Entries();
    FoldResult(items, acc.keys, acc.props, inherits, entries);
    r := Entries(entries);
  }

  /** The fold stops at the first skill whose category is inherited: that is where the grouping as written throws. */
  lemma ThrowsAt(items: seq<Skill>, i: nat)
    requires i < |items| && items[i].category in ObjectPrototypeNames
    requires forall j :: 0 <= j < i ==> items[j].category !in ObjectPrototypeNames
    ensures GroupedAsWritten(items) == PushNotAFunction(items[i].category)
  {
    FirstInheritedKeyAt(items, i);
  }

  /** After the last skill, Object.entries of the accumulator is the intended grouping, and the one as written. */
  lemma FoldResult(items: seq<Skill>, keys: seq<string>, props: map<string, seq<Skill>>, inherits: bool, es: seq<Entry>)
    requires FoldInvariant(items, |items|, keys, props, inherits)
    requires forall k :: k in props <==> k in keys
    requires |es| == |PropertyOrder(keys)|
    requires forall i :: 0 <= i < |es| ==> es[i].key == PropertyOrder(keys)[i] && es[i].list == props[es[i].key]
    ensures es == Grouped(items)
    ensures inherits ==> GroupedAsWritten(items) == Entries(es)
  {
    assert items[..|items|] == items;
    if inherits {
      AsWrittenAgrees(items);
    }
  }

  /** What the fold has built after the first i skills. */
  ghost predicate FoldInvariant(items: seq<Skill>, i: nat, keys: seq<string>, props: map<string, seq<Skill>>, inherits: bool)
    requires i <= |items|
  {
    && keys == FirstOccurrences(Categories(items[..i]))
    && (forall k :: k in props ==> props[k] == Filter(items[..i], k))
    && (inherits ==> forall j :: 0 <= j < i ==> items[j].category !in ObjectPrototypeNames)
  }

  /** A successful Push of the next skill keeps FoldInvariant. */
  lemma FoldStep(items: seq<Skill>, i: nat, keys0: seq<string>, props0: map<string, seq<Skill>>,
                 keys1: seq<string>, props1: map<string, seq<Skill>>, inherits: bool)
    requires i < |items| && FoldInvariant(items, i, keys0, props0, inherits)
    requires forall k :: k in props0 <==> k in keys0
    requires items[i].category in props0 || !inherits || items[i].category !in ObjectPrototypeNames
    requires items[i].category in props0 ==>
      keys1 == keys0 && props1 == props0[items[i].category := props0[items[i].category] + [items[i]]]
    requires items[i].category !in props0 ==>
      keys1 == keys0 + [items[i].category] && props1 == props0[items[i].category := [items[i]]]
    ensures FoldInvariant(items, i + 1, keys1, props1, inherits)
  {
    var c := items[i].category;
    assert c in props0 <==> c in Categories(items[..i]);
    if c !in props0 {
      FilterAbsentFromPrefix(items, i);
    }
    FoldStepKeys(items, i, keys0, keys1);
    FoldStepProps(items, i, props0, props1);
    FoldStepNames(items, i, inherits);
  }

  lemma FoldStepNames(items: seq<Skill>, i: nat, inherits: bool)
    requires i < |items|
    requires inherits ==> forall j :: 0 <= j < i ==> items[j].category !in ObjectPrototypeNames
    requires items[i].category in Categories(items[..i]) || !inherits || items[i].category !in ObjectPrototypeNames
    ensures inherits ==> forall j :: 0 <= j < i + 1 ==> items[j].category !in ObjectPrototypeNames
  {
    if inherits && items[i].category in Categories(items[..i]) {
      var j :| 0 <= j < i && Categories(items[..i])[j] == items[i].category;
      assert items[j].category == items[i].category;
    }
  }

  lemma FilterAbsentFromPrefix(items: seq<Skill>, i: nat)
    requires i < |items| && items[i].category !in Categories(items[..i])
    ensures Filter(items[..i], items[i].category) == []
  {
    var c := items[i].category;
    forall j | 0 <= j < i ensures items[..i][j].category != c {
      assert Categories(items[..i])[j] == items[..i][j].category;
    }
    FilterAbsent(items[..i], c);
  }

  lemma FoldStepKeys(items: seq<Skill>, i: nat, keys0: seq<string>, keys1: seq<string>)
    requires i < |items| && keys0 == FirstOccurrences(Categories(items[..i]))
    requires items[i].category in keys0 ==> keys1 == keys0
    requires items[i].category !in keys0 ==> keys1 == keys0 + [items[i].category]
    ensures keys1 == FirstOccurrences(Categories(items[..i + 1]))
  {
    GroupStep(items, i);
  }

  lemma FoldStepProps(items: seq<Skill>, i: nat, props0: map<string, seq<Skill>>, props1: map<string, seq<Skill>>)
    requires i < |items|
    requires forall k :: k in props0 ==> props0[k] == Filter(items[..i], k)
    requires items[i].category !in props0 ==> Filter(items[..i], items[i].category) == []
    requires items[i].category in props0 ==> props1 == props0[items[i].category := props0[items[i].category] + [items[i]]]
    requires items[i].category !in props0 ==> props1 == props0[items[i].category := [items[i]]]
    ensures forall k :: k in props1 ==> props1[k] == Filter(items[..i + 1], k)
  {
    var c := items[i].category;
    GroupStep(items, i);
    forall k | k in props1 ensures props1[k] == Filter(items[..i + 1], k) {
      if k != c {
        assert props1[k] == props0[k];
      }
    }
  }

  /** How the specification of a prefix grows by one skill, matching one Push. */
  lemma GroupStep(items: seq<Skill>, i: nat)
    requires i < |items|
    ensures FirstOccurrences(Categories(items[..i + 1])) ==
      (var p := FirstOccurrences(Categories(items[..i]));
       if items[i].category in p then p else p + [items[i].category])
    ensures forall k :: (Filter(items[..i + 1], k) ==
      Filter(items[..i], k) + (if items[i].category == k then [items[i]] else []))
  {
    assert items[..i + 1][..i] == items[..i];
    var cs := Categories(items[..i + 1]);
    assert cs[..i] == Categories(items[..i]);
  }

  lemma {:induction false} FilterAbsent(items: seq<Skill>, c: string)
    requires forall j :: 0 <= j < |items| ==> items[j].category != c
    ensures Filter(items, c) == []
  {
    if items != [] {
      FilterAbsent(items[..|items| - 1], c);
    }
  }

  lemma {:induction false} FirstInheritedKeyAt(items: seq<Skill>, i: nat)
    requires i < |items| && items[i].category in ObjectPrototypeNames
    requires forall j :: 0 <= j < i ==> items[j].category !in ObjectPrototypeNames
    ensures FirstInheritedKey(items) == Some(items[i].category)
  {
    if i > 0 {
      FirstInheritedKeyAt(items[1..], i - 1);
    }
  }

  lemma {:induction false} NoInheritedKey(items: seq<Skill>)
    requires forall j :: 0 <= j < |items| ==> items[j].category !in ObjectPrototypeNames
    ensures FirstInheritedKey(items) == None
  {
    if items != [] {
      NoInheritedKey(items[1..]);
    }
  }

  // ---------------------------------------------------------------------------
  // Properties of the grouping

  /** A group holds each skill of its category as often as the input does, and nothing else. */
  lemma {:induction false} FilterCount(items: seq<Skill>, c: string, s: Skill)
    ensures multiset(Filter(items, c))[s] == if s.category == c then multiset(items)[s] else 0
  {
    if items != [] {
      var xs, last := items[..|items| - 1], items[|items| - 1];
      FilterCount(xs, c, s);
      assert items == xs + [last];
    }
  }

  /**
   * A group keeps input order: the skills of a category from an earlier part
   * of the input all come before those from a later part.
   */
  lemma {:induction false} FilterAppend(a: seq<Skill>, b: seq<Skill>, c: string)
    ensures Filter(a + b, c) == Filter(a, c) + Filter(b, c)
    decreases |b|
  {
    if b != [] {
      var front, last := b[..|b| - 1], b[|b| - 1];
      assert (a + b)[..|a + b| - 1] == a + front;
      FilterAppend(a, front, c);
    } else {
      assert a + b == a;
    }
  }

  /**
   * The grouping is a partition of the input: the keys are exactly the
   * categories, each once, and every skill occurs in the group of its own
   * category exactly as often as in the input, and in no other group.
   */
  lemma GroupedPartition(items: seq<Skill>)
    ensures Distinct(GroupKeys(items))
    ensures forall c :: c in GroupKeys(items) <==> exists j :: 0 <= j < |items| && items[j].category == c
    ensures forall i, s :: 0 <= i < |Grouped(items)| ==>
      multiset(Grouped(items)[i].list)[s] == if s.category == Grouped(items)[i].key then multiset(items)[s] else 0
  {
    GroupKeysAreCategories(items);
    var g := Grouped(items);
    forall i, s | 0 <= i < |g|
      ensures multiset(g[i].list)[s] == if s.category == g[i].key then multiset(items)[s] else 0
    {
      FilterCount(items, g[i].key, s);
    }
  }

  lemma GroupKeysAreCategories(items: seq<Skill>)
    ensures Distinct(GroupKeys(items))
    ensures forall c :: c in GroupKeys(items) <==> exists j :: 0 <= j < |items| && items[j].category == c
  {
    var cs := Categories(items);
    PropertyOrderDistinct(FirstOccurrences(cs));
    PropertyOrderPermutes(FirstOccurrences(cs));
    forall c ensures c in GroupKeys(items) <==> exists j :: 0 <= j < |items| && items[j].category == c {
      if c in cs {
        var j :| 0 <= j < |cs| && cs[j] == c;
        assert items[j].category == c;
      }
    }
  }

  /**
   * FirstOccurrences lists each element before the first occurrence of any
   * element listed after it.
   */
  lemma {:induction false} FirstOccurrencesOrder(cs: seq<string>)
    ensures forall i, j, q :: 0 <= i < j < |FirstOccurrences(cs)| && 0 <= q < |cs| && cs[q] == FirstOccurrences(cs)[j] ==>
      FirstOccurrences(cs)[i] in cs[..q]
  {
    if cs != [] {
      var n := |cs|;
      var front, c := cs[..n - 1], cs[n - 1];
      var p, r := FirstOccurrences(front), FirstOccurrences(cs);
      FirstOccurrencesOrder(front);
      forall i, j, q | 0 <= i < j < |r| && 0 <= q < n && cs[q] == r[j] ensures r[i] in cs[..q] {
        assert r[i] == p[i] && r[i] in front;
        if q < n - 1 {
          assert front[q] == cs[q] && front[q] in front;
          assert r[j] in p;
          assert front[q] == p[j];
          assert front[..q] == cs[..q];
        } else {
          assert cs[..q] == front;
        }
      }
    }
  }

  /**
   * When no category is an array index, Object.entries lists the groups in the
   * order their categories first occur in the input.
   */
  lemma GroupedInFirstOccurrenceOrder(items: seq<Skill>)
    requires forall j :: 0 <= j < |items| ==> !IsArrayIndex(items[j].category)
    ensures GroupKeys(items) == FirstOccurrences(Categories(items))
    ensures forall i, j, q :: 0 <= i < j < |GroupKeys(items)| && 0 <= q < |items| && items[q].category == GroupKeys(items)[j] ==>
      GroupKeys(items)[i] in Categories(items)[..q]
  {
    var cs := Categories(items);
    forall k | k in FirstOccurrences(cs) ensures !IsArrayIndex(k) {
      var j :| 0 <= j < |cs| && cs[j] == k;
    }
    PropertyOrderWithoutIndexKeys(FirstOccurrences(cs));
    FirstOccurrencesOrder(cs);
  }

  /** As written, grouping agrees with the intended grouping unless a category names an inherited property. */
  lemma AsWrittenAgrees(items: seq<Skill>)
    requires forall j :: 0 <= j < |items| ==> items[j].category !in ObjectPrototypeNames
    ensures GroupedAsWritten(items) == Entries(Grouped(items))
  {
    NoInheritedKey(items);
  }

  /** A single skill in the category "constructor" makes the grouping as written throw. */
  lemma PrototypeCategoryThrows()
    ensures GroupedAsWritten([Skill(Str("PCB-Design"), "constructor", Num(4))]) == PushNotAFunction("constructor")
    ensures Grouped([Skill(Str("PCB-Design"), "constructor", Num(4))]) ==
      [Entry("constructor", [Skill(Str("PCB-Design"), "constructor", Num(4))])]
  {
    var s := Skill(Str("PCB-Design"), "constructor", Num(4));
    assert Categories([s]) == ["constructor"];
    assert FirstOccurrences(["constructor"]) == ["constructor"];
    assert !IsDigit("constructor"[0]);
    assert !IsArrayIndex("constructor");
    assert [s][..0] == [];
    assert Filter([s], "constructor") == [s];
    PropertyOrderWithoutIndexKeys(["constructor"]);
  }

  // ---------------------------------------------------------------------------
  // Idempotence

  /** The skills of the groups, group after group, as the section lists them. */
  function Flatten(es: seq<Entry>): (r: seq<Skill>)
    ensures forall s :: s in r ==> exists i :: 0 <= i < |es| && s in es[i].list
    decreases |es|
  {
    if es == [] then []
    else
      var init, last := es[..|es| - 1], es[|es| - 1];
      var r := Flatten(init) + last.list;
      assert forall s :: s in Flatten(init) ==> exists i :: 0 <= i < |es| && s in es[i].list by {
        forall s | s in Flatten(init) ensures exists i :: 0 <= i < |es| && s in es[i].list {
          var i :| 0 <= i < |init| && s in init[i].list;
          assert init[i] == es[i];
        }
      }
      r
  }

  function EntryKeys(es: seq<Entry>): (r: seq<string>)
    ensures |r| == |es| && forall i :: 0 <= i < |es| ==> r[i] == es[i].key
  {
    seq(|es|, i requires 0 <= i < |es| => es[i].key)
  }

  /** Entries as a grouping produces them: distinct keys, each group non-empty and of its own key's category. */
  ghost predicate WellFormed(es: seq<Entry>) {
    && Distinct(EntryKeys(es))
    && (forall i :: 0 <= i < |es| ==> es[i].list != [])
    && (forall i, s :: 0 <= i < |es| && s in es[i].list ==> s.category == es[i].key)
  }

  lemma WellFormedPrefix(es: seq<Entry>)
    requires WellFormed(es) && es != []
    ensures WellFormed(es[..|es| - 1])
    ensures es[|es| - 1].key !in EntryKeys(es[..|es| - 1])
  {
    var init := es[..|es| - 1];
    assert forall i :: 0 <= i < |init| ==> init[i] == es[i];
    forall i | 0 <= i < |init| ensures EntryKeys(init)[i] != es[|es| - 1].key {
      assert EntryKeys(es)[i] != EntryKeys(es)[|es| - 1];
    }
  }

  lemma CategoriesAppend(a: seq<Skill>, b: seq<Skill>)
    ensures Categories(a + b) == Categories(a) + Categories(b)
  {
  }

  /** Appending a run of one category adds that category once, unless it already occurred. */
  lemma {:induction false} FirstOccurrencesRun(cs: seq<string>, ds: seq<string>, c: string)
    requires ds != [] && forall i :: 0 <= i < |ds| ==> ds[i] == c
    ensures FirstOccurrences(cs + ds) == if c in cs then FirstOccurrences(cs) else FirstOccurrences(cs) + [c]
    decreases |ds|
  {
    var front := ds[..|ds| - 1];
    assert (cs + ds)[..|cs + ds| - 1] == cs + front;
    if front == [] {
      assert cs + front == cs;
    } else {
      FirstOccurrencesRun(cs, front, c);
    }
  }

  /** The categories of well-formed groups, laid out one after the other, first occur in key order. */
  lemma {:induction false} FlattenFirstOccurrences(es: seq<Entry>)
    requires WellFormed(es)
    ensures FirstOccurrences(Categories(Flatten(es))) == EntryKeys(es)
    decreases |es|
  {
    if es != [] {
      var init, last := es[..|es| - 1], es[|es| - 1];
      WellFormedPrefix(es);
      FlattenFirstOccurrences(init);
      CategoriesAppend(Flatten(init), last.list);
      LastGroupIsNew(es, Categories(last.list));
      FirstOccurrencesRun(Categories(Flatten(init)), Categories(last.list), last.key);
      EntryKeysPrefix(es);
    }
  }

  /** The last group is a run ds of its own key, a key no earlier group's skills carry. */
  lemma LastGroupIsNew(es: seq<Entry>, ds: seq<string>)
    requires WellFormed(es) && es != [] && ds == Categories(es[|es| - 1].list)
    ensures ds != [] && forall i :: 0 <= i < |ds| ==> ds[i] == es[|es| - 1].key
    ensures es[|es| - 1].key !in Categories(Flatten(es[..|es| - 1]))
  {
    var init, last := es[..|es| - 1], es[|es| - 1];
    WellFormedPrefix(es);
    forall i | 0 <= i < |ds| ensures ds[i] == last.key {
      assert last.list[i] in last.list;
    }
    var cs := Categories(Flatten(init));
    forall j | 0 <= j < |cs| ensures cs[j] != last.key {
      var s := Flatten(init)[j];
      assert s in Flatten(init);
      var i :| 0 <= i < |init| && s in init[i].list;
      assert s.category == init[i].key == EntryKeys(init)[i];
    }
  }

  lemma {:induction false} FilterAll(items: seq<Skill>, c: string)
    requires forall j :: 0 <= j < |items| ==> items[j].category == c
    ensures Filter(items, c) == items
  {
    if items != [] {
      var front, last := items[..|items| - 1], items[|items| - 1];
      assert items == front + [last];
      assert Filter(items, c) == Filter(front, c) + [last];
      FilterAll(front, c);
    }
  }

  /** Filtering the laid-out groups by a key gives back that key's group, or nothing for another key. */
  lemma {:induction false} FilterFlatten(es: seq<Entry>, k: string)
    requires WellFormed(es)
    ensures forall i :: 0 <= i < |es| && es[i].key == k ==> Filter(Flatten(es), k) == es[i].list
    ensures k !in EntryKeys(es) ==> Filter(Flatten(es), k) == []
    decreases |es|
  {
    if es != [] {
      var init, last := es[..|es| - 1], es[|es| - 1];
      WellFormedPrefix(es);
      FilterFlatten(init, k);
      FilterAppend(Flatten(init), last.list, k);
      LastGroupFilter(es, k);
      if last.key == k {
        EarlierKeysDiffer(es);
      } else {
        EntryKeysPrefix(es);
      }
    }
  }

  lemma EntryKeysPrefix(es: seq<Entry>)
    requires es != []
    ensures EntryKeys(es) == EntryKeys(es[..|es| - 1]) + [es[|es| - 1].key]
    ensures forall i :: 0 <= i < |es| - 1 ==> es[..|es| - 1][i] == es[i]
  {
    var init := es[..|es| - 1];
    assert forall i :: 0 <= i < |init| ==> EntryKeys(init)[i] == EntryKeys(es)[i];
  }

  lemma LastGroupFilter(es: seq<Entry>, k: string)
    requires WellFormed(es) && es != []
    ensures Filter(es[|es| - 1].list, k) == if es[|es| - 1].key == k then es[|es| - 1].list else []
  {
    var last := es[|es| - 1];
    forall j | 0 <= j < |last.list| ensures last.list[j].category == last.key {
      assert last.list[j] in last.list;
    }
    if last.key == k {
      FilterAll(last.list, k);
    } else {
      FilterAbsent(last.list, k);
    }
  }

  lemma EarlierKeysDiffer(es: seq<Entry>)
    requires WellFormed(es) && es != []
    ensures forall i :: 0 <= i < |es| - 1 ==> es[i].key != es[|es| - 1].key
  {
    forall i | 0 <= i < |es| - 1 ensures es[i].key != es[|es| - 1].key {
      assert EntryKeys(es)[i] != EntryKeys(es)[|es| - 1];
    }
  }

  /** The intended grouping is well formed, and its keys are the group keys. */
  lemma GroupedWellFormed(items: seq<Skill>)
    ensures WellFormed(Grouped(items)) && EntryKeys(Grouped(items)) == GroupKeys(items)
  {
    var g := Grouped(items);
    GroupKeysAreCategories(items);
    forall i | 0 <= i < |g| ensures g[i].list != [] {
      var c := g[i].key;
      assert c in GroupKeys(items);
      var j :| 0 <= j < |items| && items[j].category == c;
      FilterCount(items, c, items[j]);
      assert items[j] in multiset(items);
    }
  }

  /**
   * Grouping is idempotent: listing the groups one after the other and
   * grouping that list again gives the same groups, in the same order.
   */
  lemma GroupedIdempotent(items: seq<Skill>)
    ensures Grouped(Flatten(Grouped(items))) == Grouped(items)
  {
    var g, ks := Grouped(items), GroupKeys(items);
    var f := Flatten(g);
    GroupedWellFormed(items);
    FlattenFirstOccurrences(g);
    PropertyOrderIdempotent(FirstOccurrences(Categories(items)));
    assert GroupKeys(f) == ks;
    forall i | 0 <= i < |ks| ensures Filter(f, ks[i]) == g[i].list {
      FilterFlatten(g, ks[i]);
    }
  }
}
