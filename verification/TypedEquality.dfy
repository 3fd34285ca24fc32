// Equality of workflow documents that also asks for equal types, all the way down.
module TypedEquality {

  datatype Scalar = Null | Bool(flag: bool) | Int(number: int) | Float(size: real) | Str(text: string)

  datatype Entry = Entry(key: Scalar, value: Value)

  /** A document: a mapping is its entries in the order they were written. */
  datatype Value = Leaf(scalar: Scalar) | List(items: seq<Value>) | Dict(entries: seq<Entry>)

  // ------------------------------------------------------------ the language's own equality

  function Numeric(s: Scalar): seq<real> {
    match s
    case Bool(b) => [if b then 1.0 else 0.0]
    case Int(n) => [n as real]
    case Float(r) => [r]
    case _ => []
  }

  /** Booleans, integers and floats compare as numbers; the rest need one type. */
  predicate LooseScalar(a: Scalar, b: Scalar) {
    a == b || (Numeric(a) != [] && Numeric(a) == Numeric(b))
  }

  ghost predicate Loose(a: Value, b: Value)
    decreases a
  {
    match (a, b)
    case (Leaf(x), Leaf(y)) => LooseScalar(x, y)
    case (List(xs), List(ys)) => |xs| == |ys| && forall i :: 0 <= i < |xs| ==> Loose(xs[i], ys[i])
    case (Dict(xs), Dict(ys)) => |xs| == |ys| && forall i :: 0 <= i < |xs| ==> LooselyAnswered(xs[i], ys)
    case _ => false
  }

  /** An entry with an equal key has an equal value. */
  ghost predicate LooselyAnswered(x: Entry, ys: seq<Entry>)
    decreases x
  {
    exists j :: 0 <= j < |ys| && LooseScalar(x.key, ys[j].key) && Loose(x.value, ys[j].value)
  }

  /** No mapping holds two keys the language calls equal. */
  ghost predicate Proper(v: Value)
    decreases v
  {
    match v
    case Leaf(_) => true
    case List(items) => forall i :: 0 <= i < |items| ==> Proper(items[i])
    case Dict(entries) => Distinct(entries) && forall i :: 0 <= i < |entries| ==> Proper(entries[i].value)
  }

  predicate Distinct(entries: seq<Entry>) {
    forall i, j :: 0 <= i < j < |entries| ==> !LooseScalar(entries[i].key, entries[j].key)
  }

  // ------------------------------------------------------------ typed equality

  /** One type, one shape: the same items in order, the same keys in any order. */
  ghost predicate Same(a: Value, b: Value)
    decreases a
  {
    match (a, b)
    case (Leaf(x), Leaf(y)) => x == y
    case (List(xs), List(ys)) => |xs| == |ys| && forall i :: 0 <= i < |xs| ==> Same(xs[i], ys[i])
    case (Dict(xs), Dict(ys)) => |xs| == |ys| && forall i :: 0 <= i < |xs| ==> Answered(xs[i], ys)
    case _ => false
  }

  /** An entry with this very key has this very value. */
  ghost predicate Answered(x: Entry, ys: seq<Entry>)
    decreases x
  {
    exists j :: 0 <= j < |ys| && ys[j].key == x.key && Same(x.value, ys[j].value)
  }

  /** The place of a key among entries, or their number. */
  method Find(entries: seq<Entry>, key: Scalar) returns (found: nat)
    ensures found <= |entries|
    ensures found < |entries| ==> entries[found].key == key
    ensures found == |entries| ==> Lacks(entries, key)
  {
    found := 0;
    while found < |entries| && entries[found].key != key
      invariant found <= |entries| && forall j :: 0 <= j < found ==> entries[j].key != key
    {
      found := found + 1;
    }
  }

  /** Each key is matched to one of its own type, which is then used up. */
  method ExactlyEqual(expected: Value, actual: Value) returns (equal: bool)
    requires Proper(expected) && Proper(actual)
    ensures equal <==> Same(expected, actual)
    decreases expected
  {
    hide Unused, LooseScalar, Distinct, Answered, Lacks;
    if expected.Leaf? && actual.Leaf? { return expected.scalar == actual.scalar; }
    if expected.List? && actual.List? {
      if |expected.items| != |actual.items| { return false; }
      for i := 0 to |expected.items|
        invariant forall j :: 0 <= j < i ==> Same(expected.items[j], actual.items[j])
      {
        var same := ExactlyEqual(expected.items[i], actual.items[i]);
        if !same { return false; }
      }
      return true;
    }
    if expected.Dict? && actual.Dict? {
      if |expected.entries| != |actual.entries| { return false; }
      var remaining := actual.entries;
      NoneUsed(actual.entries);
      assert expected.entries[..0] == [];
      for i := 0 to |expected.entries|
        invariant Unused(remaining, expected.entries[..i], actual.entries)
        invariant forall j :: 0 <= j < i ==> Answered(expected.entries[j], actual.entries)
      {
        var found := Find(remaining, expected.entries[i].key);
        if found == |remaining| {
          Unanswered(expected.entries, i, remaining, actual.entries);
          return false;
        }
        var entry := remaining[found];
        StillThere(remaining, expected.entries[..i], actual.entries, found);
        EntryProper(actual.entries, entry);
        var same := ExactlyEqual(expected.entries[i].value, entry.value);
        if !same {
          OnlyAnswer(expected.entries[i], actual.entries, entry);
          return false;
        }
        Answers(expected.entries[i], actual.entries, entry);
        Used(remaining, expected.entries, i, actual.entries, found);
        remaining := remaining[..found] + remaining[found + 1..];
      }
      return true;
    }
    return false;
  }

  /** What remains are entries of `all`, every one whose key is not yet used. */
  ghost predicate Unused(remaining: seq<Entry>, used: seq<Entry>, all: seq<Entry>) {
    && (forall i :: 0 <= i < |remaining| ==> remaining[i] in all)
    && (forall e :: e in all && Lacks(used, e.key) ==> e in remaining)
  }

  lemma NoneUsed(all: seq<Entry>)
    ensures Unused(all, [], all)
  {
  }

  lemma StillThere(remaining: seq<Entry>, used: seq<Entry>, all: seq<Entry>, i: nat)
    requires Unused(remaining, used, all) && i < |remaining|
    ensures remaining[i] in all
  {
  }

  lemma Answers(x: Entry, ys: seq<Entry>, entry: Entry)
    requires entry in ys && entry.key == x.key && Same(x.value, entry.value)
    ensures Answered(x, ys)
  {
  }

  lemma EntryProper(entries: seq<Entry>, entry: Entry)
    requires Proper(Dict(entries)) && entry in entries
    ensures Proper(entry.value)
  {
  }

  predicate Lacks(entries: seq<Entry>, key: Scalar) {
    forall i :: 0 <= i < |entries| ==> entries[i].key != key
  }

  lemma DistinctKeys(entries: seq<Entry>)
    requires Distinct(entries)
    ensures forall i, j :: 0 <= i < j < |entries| ==> entries[i].key != entries[j].key
  {
  }

  lemma Unanswered(xs: seq<Entry>, i: nat, remaining: seq<Entry>, ys: seq<Entry>)
    requires i < |xs| && Distinct(xs) && Unused(remaining, xs[..i], ys)
    requires Lacks(remaining, xs[i].key)
    ensures !Answered(xs[i], ys)
  {
  }

  lemma OnlyAnswer(x: Entry, ys: seq<Entry>, entry: Entry)
    requires Distinct(ys) && entry in ys && entry.key == x.key && !Same(x.value, entry.value)
    ensures !Answered(x, ys)
  {
  }

  lemma Used(remaining: seq<Entry>, xs: seq<Entry>, i: nat, ys: seq<Entry>, found: nat)
    requires i < |xs| && Unused(remaining, xs[..i], ys) && found < |remaining| && remaining[found].key == xs[i].key
    ensures Unused(remaining[..found] + remaining[found + 1..], xs[..i + 1], ys)
  {
  }

  // ------------------------------------------------------------ an equivalence

  lemma {:induction false} SameRefl(a: Value)
    ensures Same(a, a)
    decreases a
  {
    match a
    case Leaf(_) =>
    case List(xs) => forall i | 0 <= i < |xs| ensures Same(xs[i], xs[i]) { SameRefl(xs[i]); }
    case Dict(xs) => forall i | 0 <= i < |xs| ensures Answered(xs[i], xs) { SameRefl(xs[i].value); }
  }

  function Keys(entries: seq<Entry>): set<Scalar> {
    set i | 0 <= i < |entries| :: entries[i].key
  }

  lemma {:induction false} KeyCount(entries: seq<Entry>)
    requires forall i, j :: 0 <= i < j < |entries| ==> entries[i].key != entries[j].key
    ensures |Keys(entries)| == |entries|
  {
    if entries != [] {
      var front, last := entries[..|entries| - 1], entries[|entries| - 1];
      KeyCount(front);
      KeysExtended(front, last);
      assert front + [last] == entries;
      assert last.key !in Keys(front);
    }
  }

  lemma KeysExtended(entries: seq<Entry>, last: Entry)
    ensures Keys(entries + [last]) == Keys(entries) + {last.key}
  {
    var more := entries + [last];
    forall k | k in Keys(entries) ensures k in Keys(more) {
      var i :| 0 <= i < |entries| && entries[i].key == k;
      assert more[i].key == k;
    }
    assert more[|entries|] == last;
  }

  lemma Subsets(a: set<Scalar>, b: set<Scalar>)
    requires a <= b && |a| == |b|
    ensures a == b
  {
    assert b == a + (b - a);
  }

  /** As many distinct keys, each answered: the keys are the same. */
  lemma SameKeys(xs: seq<Entry>, ys: seq<Entry>)
    requires Distinct(xs) && Distinct(ys) && Same(Dict(xs), Dict(ys))
    ensures Keys(xs) == Keys(ys)
  {
    forall k | k in Keys(xs) ensures k in Keys(ys) {
      var i :| 0 <= i < |xs| && xs[i].key == k;
      assert Answered(xs[i], ys);
    }
    DistinctKeys(xs);
    DistinctKeys(ys);
    KeyCount(xs);
    KeyCount(ys);
    Subsets(Keys(xs), Keys(ys));
  }

  lemma {:induction false} SameSym(a: Value, b: Value)
    requires Proper(a) && Proper(b) && Same(a, b)
    ensures Same(b, a)
    decreases a
  {
    match a
    case Leaf(_) =>
    case List(xs) => forall i | 0 <= i < |xs| ensures Same(b.items[i], xs[i]) { SameSym(xs[i], b.items[i]); }
    case Dict(xs) =>
      var ys := b.entries;
      SameKeys(xs, ys);
      forall j | 0 <= j < |ys| ensures Answered(ys[j], xs) {
        assert ys[j].key in Keys(ys);
        var i :| 0 <= i < |xs| && xs[i].key == ys[j].key;
        assert Answered(xs[i], ys);
        var k :| 0 <= k < |ys| && ys[k].key == xs[i].key && Same(xs[i].value, ys[k].value);
        DistinctKeys(ys);
        assert k == j;
        SameSym(xs[i].value, ys[j].value);
      }
  }

  lemma {:induction false} SameTrans(a: Value, b: Value, c: Value)
    requires Same(a, b) && Same(b, c)
    ensures Same(a, c)
    decreases a
  {
    match a
    case Leaf(_) =>
    case List(xs) =>
      forall i | 0 <= i < |xs| ensures Same(xs[i], c.items[i]) { SameTrans(xs[i], b.items[i], c.items[i]); }
    case Dict(xs) =>
      var ys, zs := b.entries, c.entries;
      forall i | 0 <= i < |xs| ensures Answered(xs[i], zs) {
        assert Answered(xs[i], ys);
        var j :| 0 <= j < |ys| && ys[j].key == xs[i].key && Same(xs[i].value, ys[j].value);
        assert Answered(ys[j], zs);
        var k :| 0 <= k < |zs| && zs[k].key == ys[j].key && Same(ys[j].value, zs[k].value);
        SameTrans(xs[i].value, ys[j].value, zs[k].value);
      }
  }

  /** Finer than the language's equality ... */
  lemma {:induction false} SameIsLoose(a: Value, b: Value)
    requires Same(a, b)
    ensures Loose(a, b)
    decreases a
  {
    match a
    case Leaf(_) =>
    case List(xs) => forall i | 0 <= i < |xs| ensures Loose(xs[i], b.items[i]) { SameIsLoose(xs[i], b.items[i]); }
    case Dict(xs) =>
      var ys := b.entries;
      forall i | 0 <= i < |xs|
        ensures LooselyAnswered(xs[i], ys)
      {
        assert Answered(xs[i], ys);
        var j :| 0 <= j < |ys| && ys[j].key == xs[i].key && Same(xs[i].value, ys[j].value);
        SameIsLoose(xs[i].value, ys[j].value);
      }
  }

  /** ... which differs from it exactly by the types of leaves and keys. */
  ghost predicate Typed(a: Value, b: Value)
    decreases a
  {
    match (a, b)
    case (Leaf(x), Leaf(y)) => LooseScalar(x, y) ==> x == y
    case (List(xs), List(ys)) => forall i :: 0 <= i < |xs| && i < |ys| ==> Typed(xs[i], ys[i])
    case (Dict(xs), Dict(ys)) =>
      forall i, j :: 0 <= i < |xs| && 0 <= j < |ys| && LooseScalar(xs[i].key, ys[j].key) ==>
        xs[i].key == ys[j].key && Typed(xs[i].value, ys[j].value)
    case _ => true
  }

  lemma {:induction false} SameIffTyped(a: Value, b: Value)
    requires Proper(a) && Proper(b)
    ensures Same(a, b) <==> Loose(a, b) && Typed(a, b)
    decreases a
  {
    match (a, b) {
      case (List(xs), List(ys)) =>
        if |xs| == |ys| {
          forall i | 0 <= i < |xs| ensures Same(xs[i], ys[i]) <==> Loose(xs[i], ys[i]) && Typed(xs[i], ys[i]) {
            SameIffTyped(xs[i], ys[i]);
          }
        }
      case (Dict(xs), Dict(ys)) =>
        forall i, j | 0 <= i < |xs| && 0 <= j < |ys|
          ensures Same(xs[i].value, ys[j].value) <==> Loose(xs[i].value, ys[j].value) && Typed(xs[i].value, ys[j].value)
        {
          SameIffTyped(xs[i].value, ys[j].value);
        }
        if Same(a, b) {
          SameIsLoose(a, b);
          SameEntriesTyped(xs, ys);
        }
        if Loose(a, b) && Typed(a, b) { LooseEntriesSame(xs, ys); }
      case _ =>
    }
  }

  lemma LooseEntriesSame(xs: seq<Entry>, ys: seq<Entry>)
    requires Loose(Dict(xs), Dict(ys)) && Typed(Dict(xs), Dict(ys))
    requires forall i, j :: 0 <= i < |xs| && 0 <= j < |ys| ==>
               (Same(xs[i].value, ys[j].value) <==> Loose(xs[i].value, ys[j].value) && Typed(xs[i].value, ys[j].value))
    ensures Same(Dict(xs), Dict(ys))
  {
  }

  lemma OnePlace(entries: seq<Entry>, k: nat, j: nat)
    requires Distinct(entries) && k < |entries| && j < |entries| && LooseScalar(entries[k].key, entries[j].key)
    ensures k == j
  {
  }

  lemma SameEntriesTyped(xs: seq<Entry>, ys: seq<Entry>)
    requires Distinct(xs) && Distinct(ys) && Same(Dict(xs), Dict(ys))
    requires forall i, j :: 0 <= i < |xs| && 0 <= j < |ys| ==>
               (Same(xs[i].value, ys[j].value) <==> Loose(xs[i].value, ys[j].value) && Typed(xs[i].value, ys[j].value))
    ensures Typed(Dict(xs), Dict(ys))
  {
    forall i, j | 0 <= i < |xs| && 0 <= j < |ys| && LooseScalar(xs[i].key, ys[j].key)
      ensures xs[i].key == ys[j].key && Typed(xs[i].value, ys[j].value)
    {
      assert Answered(xs[i], ys);
      var k :| 0 <= k < |ys| && ys[k].key == xs[i].key && Same(xs[i].value, ys[k].value);
      assert LooseScalar(ys[k].key, ys[j].key);
      OnePlace(ys, k, j);
    }
  }

  function Single(key: Scalar, leaf: Scalar): Value {
    Dict([Entry(key, Leaf(leaf))])
  }

  lemma SingleEqual(k: Scalar, x: Scalar, l: Scalar, y: Scalar)
    ensures Proper(Single(k, x))
    ensures Loose(Single(k, x), Single(l, y)) <==> LooseScalar(k, l) && LooseScalar(x, y)
    ensures Same(Single(k, x), Single(l, y)) <==> k == l && x == y
  {
    hide LooseScalar;
    var a, b := Entry(k, Leaf(x)), Entry(l, Leaf(y));
    assert [a][0] == a && [b][0] == b;
    assert Loose(a.value, b.value) <==> LooseScalar(x, y);
    assert Answered(a, [b]) <==> k == l && x == y;
  }

  /** A false flag and a zero, as a value or as a key: one to the language, two here. */
  lemma ZeroIsNotFalse(key: string)
    ensures Loose(Single(Str(key), Bool(false)), Single(Str(key), Int(0)))
    ensures !Same(Single(Str(key), Bool(false)), Single(Str(key), Int(0)))
    ensures Loose(Single(Bool(true), Null), Single(Int(1), Null))
    ensures !Same(Single(Bool(true), Null), Single(Int(1), Null))
  {
    SingleEqual(Str(key), Bool(false), Str(key), Int(0));
    SingleEqual(Bool(true), Null, Int(1), Null);
  }
}
