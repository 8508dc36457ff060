/**
 * The shop's category filter (`buildCategoriesFromProducts`): an "all"
 * entry followed by one entry per category the products use, in the order
 * the categories first appear, each labelled as the last product of that
 * category labels it.
 */
module Categories {
  import opened Wrappers
  import opened Json

  /** A filter entry `{ key, label, emoji }`; the key is the category value itself. */
  datatype Category = Category(key: Value, caption: Value, emoji: string)

  const AllEntry: Category := Category(Str("ALL"), Str("Todos"), "\U{1F7E2}")
  const ShoppingBags: string := "\U{1F6CD}\U{FE0F}"

  /** `p.category` when it is truthy; products without one are skipped. */
  function CategoryOf(p: Object): Option<Value> {
    if TruthyAt(p, "category") then Some(p["category"]) else None
  }

  /** `p.categoryLabel || p.category`. */
  function LabelOf(p: Object): (r: Value)
    requires CategoryOf(p).Some?
    ensures TruthyAt(p, "categoryLabel") ==> r == p["categoryLabel"]
    ensures !TruthyAt(p, "categoryLabel") ==> r == p["category"]
  {
    OrElse(Get(p, "categoryLabel"), Get(p, "category")).value
  }

  /** The categories of `ps`, each once, in the order they first appear. */
  function Keys(ps: seq<Object>): (r: seq<Value>)
    decreases |ps|
  {
    if ps == [] then []
    else
      var prefix := Keys(ps[..|ps| - 1]);
      var c := CategoryOf(ps[|ps| - 1]);
      if c.Some? && c.value !in prefix then prefix + [c.value] else prefix
  }

  /** Whether some product of `ps` has category `c`. */
  predicate HasCategory(ps: seq<Object>, c: Value) {
    exists i :: 0 <= i < |ps| && CategoryOf(ps[i]) == Some(c)
  }

  /** The label the last product of category `c` gives. */
  function LastLabel(ps: seq<Object>, c: Value): Value
    requires HasCategory(ps, c)
    decreases |ps|
  {
    var p := ps[|ps| - 1];
    if CategoryOf(p) == Some(c) then LabelOf(p)
    else
      assert HasCategory(ps[..|ps| - 1], c) by {
        var i :| 0 <= i < |ps| && CategoryOf(ps[i]) == Some(c);
        assert i < |ps| - 1 && ps[..|ps| - 1][i] == ps[i];
      }
      LastLabel(ps[..|ps| - 1], c)
  }

  /** The set of categories `ps` uses. */
  function CategorySet(ps: seq<Object>): set<Value> {
    set i | 0 <= i < |ps| && CategoryOf(ps[i]).Some? :: CategoryOf(ps[i]).value
  }

  /** The `Map` entries after the products `ps`: each category with its last label. */
  function Entries(ps: seq<Object>): (r: seq<(Value, Value)>)
  {
    var keys := Keys(ps);
    KeysAreCategories(ps);
    seq(|keys|, j requires 0 <= j < |keys| => (keys[j], LastLabel(ps, keys[j])))
  }

  /** The first entry index with key `c`, or -1. */
  function IndexOfKey(entries: seq<(Value, Value)>, c: Value): (j: int)
    ensures -1 <= j < |entries|
    ensures 0 <= j ==> entries[j].0 == c
    ensures j < 0 <==> forall k :: 0 <= k < |entries| ==> entries[k].0 != c
  {
    if entries == [] then -1
    else if entries[|entries| - 1].0 == c && IndexOfKey(entries[..|entries| - 1], c) < 0 then |entries| - 1
    else IndexOfKey(entries[..|entries| - 1], c)
  }

  /**
   * `buildCategoriesFromProducts(products)`: the `for` loop fills the `Map`
   * (`map.set` keeps a key's place and replaces its label), then the entries
   * follow the "all" entry.
   */
  method BuildCategories(products: seq<Object>) returns (r: seq<Category>)
    ensures |r| == 1 + |Keys(products)| && r[0] == AllEntry
    ensures forall j :: 1 <= j < |r| ==>
              r[j] == Category(Keys(products)[j - 1], Entries(products)[j - 1].1, ShoppingBags)
  {
    var entries: seq<(Value, Value)> := [];
    for i := 0 to |products|
      invariant entries == Entries(products[..i])
    {
      var p := products[i];
      assert products[..i + 1] == products[..i] + [p];
      if TruthyAt(p, "category") {
        var c := p["category"];
        var caption := OrElse(Get(p, "categoryLabel"), Get(p, "category")).value;
        var j := IndexOfKey(entries, c);
        SetStep(products[..i], p, j);
        if j >= 0 {
          entries := entries[j := (c, caption)];
        } else {
          entries := entries + [(c, caption)];
        }
      } else {
        SkipStep(products[..i], p);
      }
    }
    assert products[..|products|] == products;
    var dynamic := seq(|entries|, j requires 0 <= j < |entries| => Category(entries[j].0, entries[j].1, ShoppingBags));
    r := [AllEntry] + dynamic;
  }

  // ---------------------------------------------------------------------
  // Properties
  // ---------------------------------------------------------------------

  /** The keys are exactly the categories the products use. */
  lemma {:induction false} KeysAreCategories(ps: seq<Object>)
    ensures forall c :: c in Keys(ps) <==> HasCategory(ps, c)
    decreases |ps|
  {
    if ps != [] {
      var init := ps[..|ps| - 1];
      KeysAreCategories(init);
      forall c ensures c in Keys(ps) <==> HasCategory(ps, c) {
        if HasCategory(ps, c) {
          var i :| 0 <= i < |ps| && CategoryOf(ps[i]) == Some(c);
          if i < |ps| - 1 {
            assert init[i] == ps[i];
          }
        }
        if HasCategory(init, c) {
          var i :| 0 <= i < |init| && CategoryOf(init[i]) == Some(c);
          assert ps[i] == init[i];
        }
      }
    }
  }

  /** No category is listed twice. */
  lemma {:induction false} KeysDistinct(ps: seq<Object>)
    ensures forall a, b :: 0 <= a < b < |Keys(ps)| ==> Keys(ps)[a] != Keys(ps)[b]
    decreases |ps|
  {
    if ps != [] {
      KeysDistinct(ps[..|ps| - 1]);
    }
  }

  /** Later products never reorder the categories already listed: the order is that of first appearance. */
  lemma {:induction false} KeysPrefix(ps: seq<Object>, n: nat)
    requires n <= |ps|
    ensures Keys(ps[..n]) <= Keys(ps)
    decreases |ps| - n
  {
    if n < |ps| {
      KeysPrefix(ps, n + 1);
      assert ps[..n + 1][..n] == ps[..n];
    } else {
      assert ps[..n] == ps;
    }
  }

  /** One entry per distinct category. */
  lemma {:induction false} KeysCount(ps: seq<Object>)
    ensures |Keys(ps)| == |CategorySet(ps)|
    decreases |ps|
  {
    if ps != [] {
      var init := ps[..|ps| - 1];
      KeysCount(init);
      KeysAreCategories(init);
      var p := ps[|ps| - 1];
      var c := CategoryOf(p);
      CategorySetStep(ps);
      if c.Some? && c.value in Keys(init) {
        var i :| 0 <= i < |init| && CategoryOf(init[i]) == Some(c.value);
        assert c.value in CategorySet(init);
        assert CategorySet(ps) == CategorySet(init);
        assert Keys(ps) == Keys(init);
      } else if c.Some? {
        assert c.value !in CategorySet(init);
        assert Keys(ps) == Keys(init) + [c.value];
      } else {
        assert Keys(ps) == Keys(init);
      }
    }
  }

  /** The categories of `ps` are those of all but its last product, plus the last one's. */
  lemma CategorySetStep(ps: seq<Object>)
    requires ps != []
    ensures var c := CategoryOf(ps[|ps| - 1]);
            CategorySet(ps) == CategorySet(ps[..|ps| - 1]) + (if c.Some? then {c.value} else {})
  {
    var init := ps[..|ps| - 1];
    var c := CategoryOf(ps[|ps| - 1]);
    forall x | x in CategorySet(ps) ensures x in CategorySet(init) + (if c.Some? then {c.value} else {}) {
      var i :| 0 <= i < |ps| && CategoryOf(ps[i]).Some? && CategoryOf(ps[i]).value == x;
      if i < |ps| - 1 {
        assert init[i] == ps[i];
      }
    }
    forall x | x in CategorySet(init) ensures x in CategorySet(ps) {
      var i :| 0 <= i < |init| && CategoryOf(init[i]).Some? && CategoryOf(init[i]).value == x;
      assert ps[i] == init[i];
    }
    if c.Some? {
      assert c.value in CategorySet(ps);
    }
  }

  /** A product without a category changes no entry. */
  lemma SkipStep(ps: seq<Object>, p: Object)
    requires CategoryOf(p).None?
    ensures Entries(ps + [p]) == Entries(ps)
  {
    var qs := ps + [p];
    assert qs[..|qs| - 1] == ps;
    KeysAreCategories(ps);
    KeysAreCategories(qs);
    forall j | 0 <= j < |Keys(ps)| ensures LastLabel(qs, Keys(ps)[j]) == LastLabel(ps, Keys(ps)[j]) {
    }
  }

  /** A product with a category relabels that category's entry, or adds it at the end. */
  lemma SetStep(ps: seq<Object>, p: Object, j: int)
    requires CategoryOf(p).Some?
    requires j == IndexOfKey(Entries(ps), CategoryOf(p).value)
    ensures var c := CategoryOf(p).value;
            Entries(ps + [p]) == if j >= 0 then Entries(ps)[j := (c, LabelOf(p))] else Entries(ps) + [(c, LabelOf(p))]
  {
    var qs := ps + [p];
    var c := CategoryOf(p).value;
    assert qs[..|qs| - 1] == ps;
    KeysAreCategories(ps);
    KeysAreCategories(qs);
    KeysDistinct(ps);
    var keys := Keys(ps);
    var e, e' := Entries(ps), Entries(qs);
    assert forall k :: 0 <= k < |keys| ==> e[k].0 == keys[k];
    if c in keys {
      var k :| 0 <= k < |keys| && keys[k] == c;
      assert e[k].0 == c;
    }
    assert c in keys <==> j >= 0;
    assert Keys(qs) == if c in keys then keys else keys + [c];
    var expected := if j >= 0 then e[j := (c, LabelOf(p))] else e + [(c, LabelOf(p))];
    assert |e'| == |expected|;
    forall k | 0 <= k < |e'| ensures e'[k] == expected[k] {
      if k < |keys| && keys[k] != c {
        assert LastLabel(qs, keys[k]) == LastLabel(ps, keys[k]);
        assert k != j;
      } else if k < |keys| {
        assert k == j;
      }
    }
  }

  /** The entries' labels: each category carries the label of the last product with it. */
  lemma EntriesLabels(ps: seq<Object>, j: int)
    requires 0 <= j < |Keys(ps)|
    ensures HasCategory(ps, Keys(ps)[j]) && Entries(ps)[j] == (Keys(ps)[j], LastLabel(ps, Keys(ps)[j]))
  {
    KeysAreCategories(ps);
  }
}
