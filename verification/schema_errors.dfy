/** Flattening a structured validation error: nested objects and arrays of
    messages become one map from a path (`..field[0].sub`) to the message
    found there. The object key `default_factory` is not a field and is
    skipped. */
module SchemaErrors {
  import opened Wrappers
  import opened Text

  /** A validation error as the validator builds it: a message, an object
      of named sub-errors (in iteration order), or an array of them. */
  datatype ErrTree =
    | Leaf(msg: string)
    | Dict(entries: seq<(string, ErrTree)>)
    | List(items: seq<ErrTree>)

  const DefaultFactory := "default_factory"

  /** The path of an object member. */
  function FieldPath(key: string, name: string): (p: string)
    ensures key + "." <= p && p[|key| + 1..] == name
  {
    key + "." + name
  }

  /** The path of an array element. */
  function IndexPath(key: string, i: nat): (p: string)
    ensures key + "[" <= p && p[|p| - 1] == ']' && ParseInt(p[|key| + 1..|p| - 1]) == Some(i)
  {
    var p := key + "[" + NatToString(i) + "]";
    assert p[|key| + 1..|p| - 1] == NatToString(i);
    ParseRendered(i);
    p
  }

  /** `_collect(err, key)`: every message under `t`, keyed by its path
      below `key`; when two messages share a path the later one wins
      (`dict.update`). */
  function Collect(t: ErrTree, key: string): (r: map<string, string>)
    ensures forall p :: p in r ==> key <= p
    decreases t, 1, 0
  {
    match t
    case Leaf(m) => map[key := m]
    case Dict(es) => CollectEntries(t, |es|, key)
    case List(xs) => CollectItems(t, |xs|, key)
  }

  /** The loop over the first `n` members of an object. */
  function CollectEntries(t: ErrTree, n: nat, key: string): (r: map<string, string>)
    requires t.Dict? && n <= |t.entries|
    ensures forall p :: p in r ==> key + "." <= p
    decreases t, 0, n
  {
    if n == 0 then map[]
    else
      var before := CollectEntries(t, n - 1, key);
      var (k, v) := t.entries[n - 1];
      assert t.entries[n - 1] in t.entries;
      if k == DefaultFactory then before
      else
        var sub := Collect(v, FieldPath(key, k));
        assert forall p :: p in sub ==> key + "." <= p by {
          forall p | p in sub ensures key + "." <= p {
            PrefixTrans(key + ".", FieldPath(key, k), p);
          }
        }
        before + sub
  }

  /** The loop over the first `n` elements of an array. */
  function CollectItems(t: ErrTree, n: nat, key: string): (r: map<string, string>)
    requires t.List? && n <= |t.items|
    ensures forall p :: p in r ==> key + "[" <= p
    decreases t, 0, n
  {
    if n == 0 then map[]
    else
      var before := CollectItems(t, n - 1, key);
      assert t.items[n - 1] in t.items;
      var sub := Collect(t.items[n - 1], IndexPath(key, n - 1));
      assert forall p :: p in sub ==> key + "[" <= p by {
        forall p | p in sub ensures key + "[" <= p {
          PrefixTrans(key + "[", IndexPath(key, n - 1), p);
        }
      }
      before + sub
  }

  lemma PrefixTrans(a: string, b: string, c: string)
    requires a <= b && b <= c
    ensures a <= c
  {
    assert c[..|a|] == c[..|b|][..|a|];
  }

  /** `collect_all_errors`: the root path is "." so a top-level field `f`
      sits at "..f". */
  function CollectAllErrors(t: ErrTree): (r: map<string, string>)
    ensures forall p :: p in r ==> "." <= p
  {
    Collect(t, ".")
  }

  // ---- an order-free reference -------------------------------------------

  /** Every (path, message) pair of the tree, as a set: what the flattening
      is meant to list, irrespective of iteration order. */
  function Leaves(t: ErrTree, key: string): set<(string, string)>
    decreases t, 1, 0
  {
    match t
    case Leaf(m) => {(key, m)}
    case Dict(es) => LeavesEntries(t, |es|, key)
    case List(xs) => LeavesItems(t, |xs|, key)
  }

  function LeavesEntries(t: ErrTree, n: nat, key: string): set<(string, string)>
    requires t.Dict? && n <= |t.entries|
    decreases t, 0, n
  {
    if n == 0 then {}
    else
      assert t.entries[n - 1] in t.entries;
      var (k, v) := t.entries[n - 1];
      LeavesEntries(t, n - 1, key) + (if k == DefaultFactory then {} else Leaves(v, FieldPath(key, k)))
  }

  function LeavesItems(t: ErrTree, n: nat, key: string): set<(string, string)>
    requires t.List? && n <= |t.items|
    decreases t, 0, n
  {
    if n == 0 then {}
    else
      assert t.items[n - 1] in t.items;
      LeavesItems(t, n - 1, key) + Leaves(t.items[n - 1], IndexPath(key, n - 1))
  }

  /** Each collected message is one found at that path, and every path of
      the tree is collected: nothing invented, nothing lost. */
  lemma {:induction false} CollectMatchesLeaves(t: ErrTree, key: string)
    ensures forall p :: p in Collect(t, key) ==> (p, Collect(t, key)[p]) in Leaves(t, key)
    ensures forall p, m :: (p, m) in Leaves(t, key) ==> p in Collect(t, key)
    decreases t, 1, 0
  {
    match t
    case Leaf(m) =>
    case Dict(es) => EntriesMatchLeaves(t, |es|, key);
    case List(xs) => ItemsMatchLeaves(t, |xs|, key);
  }

  lemma {:induction false} EntriesMatchLeaves(t: ErrTree, n: nat, key: string)
    requires t.Dict? && n <= |t.entries|
    ensures forall p :: p in CollectEntries(t, n, key) ==> (p, CollectEntries(t, n, key)[p]) in LeavesEntries(t, n, key)
    ensures forall p, m :: (p, m) in LeavesEntries(t, n, key) ==> p in CollectEntries(t, n, key)
    decreases t, 0, n
  {
    if n > 0 {
      EntriesMatchLeaves(t, n - 1, key);
      assert t.entries[n - 1] in t.entries;
      var (k, v) := t.entries[n - 1];
      if k != DefaultFactory {
        CollectMatchesLeaves(v, FieldPath(key, k));
      }
    }
  }

  lemma {:induction false} ItemsMatchLeaves(t: ErrTree, n: nat, key: string)
    requires t.List? && n <= |t.items|
    ensures forall p :: p in CollectItems(t, n, key) ==> (p, CollectItems(t, n, key)[p]) in LeavesItems(t, n, key)
    ensures forall p, m :: (p, m) in LeavesItems(t, n, key) ==> p in CollectItems(t, n, key)
    decreases t, 0, n
  {
    if n > 0 {
      ItemsMatchLeaves(t, n - 1, key);
      assert t.items[n - 1] in t.items;
      CollectMatchesLeaves(t.items[n - 1], IndexPath(key, n - 1));
    }
  }

  /** A `default_factory` member contributes nothing, wherever it sits. */
  lemma DefaultFactorySkipped(es: seq<(string, ErrTree)>, v: ErrTree, rest: seq<(string, ErrTree)>, key: string)
    ensures Collect(Dict(es + [(DefaultFactory, v)] + rest), key) == Collect(Dict(es + rest), key)
  {
    var a := Dict(es + [(DefaultFactory, v)] + rest);
    var b := Dict(es + rest);
    assert a.entries[..|es|] == es == b.entries[..|es|];
    assert forall i :: |es| < i < |a.entries| ==> a.entries[i] == rest[i - |es| - 1] == b.entries[i - 1];
    SkipShift(a, b, |es|, |rest|, key);
  }

  lemma {:induction false} PrefixSame(a: ErrTree, b: ErrTree, n: nat, key: string)
    requires a.Dict? && b.Dict? && n <= |a.entries| && n <= |b.entries| && a.entries[..n] == b.entries[..n]
    ensures CollectEntries(a, n, key) == CollectEntries(b, n, key)
  {
    if n > 0 {
      assert a.entries[..n - 1] == a.entries[..n][..n - 1];
      assert b.entries[..n - 1] == b.entries[..n][..n - 1];
      PrefixSame(a, b, n - 1, key);
      assert a.entries[n - 1] == a.entries[..n][n - 1];
      assert b.entries[n - 1] == b.entries[..n][n - 1];
    }
  }

  lemma {:induction false} SkipShift(a: ErrTree, b: ErrTree, m: nat, j: nat, key: string)
    requires a.Dict? && b.Dict? && m + 1 + j <= |a.entries| && |a.entries| == |b.entries| + 1
    requires a.entries[..m] == b.entries[..m] && a.entries[m].0 == DefaultFactory
    requires forall i :: m < i < |a.entries| ==> a.entries[i] == b.entries[i - 1]
    ensures CollectEntries(a, m + 1 + j, key) == CollectEntries(b, m + j, key)
  {
    if j == 0 {
      PrefixSame(a, b, m, key);
      assert CollectEntries(a, m + 1, key) == CollectEntries(a, m, key);
    } else {
      SkipShift(a, b, m, j - 1, key);
      assert a.entries[m + j] == b.entries[m + j - 1];
    }
  }

  /** An object with one member `name` holds its member's messages under
      `key.name`. */
  lemma SingleField(key: string, name: string, child: ErrTree)
    requires name != DefaultFactory
    ensures Collect(Dict([(name, child)]), key) == Collect(child, key + "." + name)
  {
    var sub := Collect(child, key + "." + name);
    assert CollectEntries(Dict([(name, child)]), 1, key) == map[] + sub;
    assert map[] + sub == sub;
  }

  /** An array of one element holds its element's messages under `key[0]`. */
  lemma SingleItem(key: string, child: ErrTree)
    ensures Collect(List([child]), key) == Collect(child, key + "[0]")
  {
    assert NatToString(0) == "0";
    assert IndexPath(key, 0) == key + "[0]";
    var sub := Collect(child, key + "[0]");
    assert CollectItems(List([child]), 1, key) == map[] + sub;
    assert map[] + sub == sub;
  }

  /** A message under three single-member objects, each inside a
      one-element array, lands at `key.f1[0].f2[0].f3[0]`. */
  lemma ThreeLevels(key: string, f1: string, f2: string, f3: string, msg: string)
    requires f1 != DefaultFactory && f2 != DefaultFactory && f3 != DefaultFactory
    ensures Collect(Dict([(f1, List([Dict([(f2, List([Dict([(f3, List([Leaf(msg)]))])]))])]))]), key)
      == map[key + "." + f1 + "[0]" + "." + f2 + "[0]" + "." + f3 + "[0]" := msg]
  {
    var k1 := key + "." + f1;
    var k2 := k1 + "[0]";
    var k3 := k2 + "." + f2;
    var k4 := k3 + "[0]";
    var k5 := k4 + "." + f3;
    var k6 := k5 + "[0]";
    var t5 := List([Leaf(msg)]);
    var t4 := Dict([(f3, t5)]);
    var t3 := List([t4]);
    var t2 := Dict([(f2, t3)]);
    var t1 := List([t2]);
    assert Collect(Leaf(msg), k6) == map[k6 := msg];
    SingleItem(k5, Leaf(msg));
    SingleField(k4, f3, t5);
    SingleItem(k3, t4);
    SingleField(k2, f2, t3);
    SingleItem(k1, t2);
    SingleField(key, f1, t1);
  }

  /** A member `f` holding a one-element array holds the element's messages
      under `key.f[0]`. */
  lemma FieldItem(key: string, f: string, child: ErrTree)
    requires f != DefaultFactory
    ensures Collect(Dict([(f, List([child]))]), key) == Collect(child, key + "." + f + "[0]")
  {
    SingleField(key, f, List([child]));
    SingleItem(key + "." + f, child);
  }

  /** The expectation of the stop-schedule schema test: a message under
      `stop_schedules`, `date_times`, `additional_informations` and `type`,
      each a one-element array, is collected once, at a path ending with
      `additional_informations[0].type[0]`. */
  lemma NestedPath(msg: string)
    ensures CollectAllErrors(
      Dict([("stop_schedules", List([Dict([("date_times", List([Dict([("additional_informations",
        List([Dict([("type", List([Leaf(msg)]))])]))])]))])]))]))
      == map["." + "." + "stop_schedules" + "[0]" + "." + "date_times" + "[0]"
             + "." + "additional_informations" + "[0]" + "." + "type" + "[0]" := msg]
  {
    var t4 := Dict([("type", List([Leaf(msg)]))]);
    var t3 := Dict([("additional_informations", List([t4]))]);
    var t2 := Dict([("date_times", List([t3]))]);
    var k1 := "." + "." + "stop_schedules" + "[0]";
    var k2 := k1 + "." + "date_times" + "[0]";
    var k3 := k2 + "." + "additional_informations" + "[0]";
    var k4 := k3 + "." + "type" + "[0]";
    assert |"stop_schedules"| != |DefaultFactory| && |"date_times"| != |DefaultFactory|;
    assert |"additional_informations"| != |DefaultFactory| && |"type"| != |DefaultFactory|;
    FieldItem(".", "stop_schedules", t2);
    FieldItem(k1, "date_times", t3);
    FieldItem(k2, "additional_informations", t4);
    FieldItem(k3, "type", Leaf(msg));
  }
}
