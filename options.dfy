/**
 * SM_Filter's options: the built-in defaults and `_deepMerge`, which overlays the
 * caller's options on them. Values are JSON-like; an object maps property keys to
 * values, a key that spells an array index ("0", "1", ...) being written `Index(n)`
 * (`Canonical` states that convention).
 */
module Options {

  datatype Key = Name(s: string) | Index(n: nat)

  datatype Json =
    | Null
    | Bool(b: bool)
    | Num(n: int)
    | Str(s: string)
    | Arr(items: seq<Json>)
    | Obj(fields: map<Key, Json>)

  /** The decimal spelling of an array index: "0", or digits without a leading zero. */
  predicate SpellsIndex(s: string) {
    && |s| > 0
    && (forall i :: 0 <= i < |s| ==> '0' <= s[i] <= '9')
    && (s[0] == '0' ==> |s| == 1)
  }

  /** No object key is written `Name(s)` for an index spelling `s`, so one JavaScript property has one key. */
  ghost predicate Canonical(v: Json)
    decreases v
  {
    match v
    case Arr(xs) => forall i :: 0 <= i < |xs| ==> Canonical(xs[i])
    case Obj(m) => forall k :: k in m ==> !(k.Name? && SpellsIndex(k.s)) && Canonical(m[k])
    case _ => true
  }

  /** `v && typeof v === 'object'`: the values `_deepMerge` descends into. */
  predicate IsContainer(v: Json) {
    v.Arr? || v.Obj?
  }

  /** JavaScript truthiness. */
  predicate Truthy(v: Json) {
    match v
    case Null => false
    case Bool(b) => b
    case Num(n) => n != 0
    case Str(s) => s != ""
    case _ => true
  }

  /** The values `for (p in v)` visits, in index order, when `v` is an array or a string. */
  function Items(v: Json): (r: seq<Json>)
    ensures v.Arr? ==> r == v.items
    ensures v.Str? ==> |r| == |v.s|
    ensures !v.Arr? && !v.Str? ==> r == []
  {
    match v
    case Arr(xs) => xs
    case Str(s) => seq(|s|, i requires 0 <= i < |s| => Str([s[i]]))
    case _ => []
  }

  /** The properties `for (p in v)` visits, each with `v[p]`. */
  function Entries(v: Json): (r: map<Key, Json>)
    ensures v.Obj? ==> r == v.fields
    ensures !v.Obj? ==> forall i :: 0 <= i < |Items(v)| ==> Index(i) in r && r[Index(i)] == Items(v)[i]
    ensures !v.Obj? ==> forall k :: k in r ==> k.Index? && k.n < |Items(v)|
  {
    if v.Obj? then v.fields
    else var xs := Items(v); map i | 0 <= i < |xs| :: Index(i) := xs[i]
  }

  /**
   * The inputs the model covers: wherever the merge descends into an array, the
   * option there is not an object (its keys would leave holes in the array).
   */
  ghost predicate Mergeable(target: Json, source: Json)
    decreases target
  {
    match target
    case Arr(xs) =>
      && !source.Obj?
      && forall i :: 0 <= i < |xs| && i < |Items(source)| && IsContainer(xs[i]) ==> Mergeable(xs[i], Items(source)[i])
    case Obj(m) =>
      forall k :: k in m && k in Entries(source) && IsContainer(m[k]) ==> Mergeable(m[k], Entries(source)[k])
    case _ => true
  }

  /** The value a property ends up with: merged into an existing container, otherwise overwritten. */
  function MergeValue(current: Json, option: Json): Json
    requires IsContainer(current) ==> Mergeable(current, option)
    decreases current, 2, 0
  {
    if IsContainer(current) then Merged(current, option) else option
  }

  /** `_deepMerge(target, source)`: the merged copy, as a function. */
  function Merged(target: Json, source: Json): (r: Json)
    requires IsContainer(target) && Mergeable(target, source)
    ensures target.Arr? ==> r.Arr? && |r.items| == Max(|target.items|, |Items(source)|)
    ensures target.Obj? ==> r.Obj? && r.fields.Keys == target.fields.Keys + Entries(source).Keys
    decreases target, 1, 0
  {
    match target
    case Arr(xs) => Arr(MergedItems(xs, Items(source), |Items(source)|))
    case Obj(m) => Obj(MergedFields(m, Entries(source), Entries(source).Keys))
  }

  function Max(a: int, b: int): int {
    if a < b then b else a
  }

  /** The array after the first `n` option items have been merged in, index by index. */
  function MergedItems(xs: seq<Json>, ys: seq<Json>, n: nat): (r: seq<Json>)
    requires n <= |ys|
    requires forall i :: 0 <= i < |xs| && i < |ys| && IsContainer(xs[i]) ==> Mergeable(xs[i], ys[i])
    ensures |r| == Max(|xs|, n)
    decreases Arr(xs), 0, n
  {
    seq(Max(|xs|, n), i requires 0 <= i < Max(|xs|, n) =>
      if i < n then (if i < |xs| then MergeValue(xs[i], ys[i]) else ys[i]) else xs[i])
  }

  /** The value option property `k` leaves behind: merged into the copied property, or new. */
  function Settled(m: map<Key, Json>, e: map<Key, Json>, k: Key): Json
    requires k in e
    requires forall k :: k in m && k in e && IsContainer(m[k]) ==> Mergeable(m[k], e[k])
    decreases Obj(m), 0, 0
  {
    if k in m then MergeValue(m[k], e[k]) else e[k]
  }

  /** The object after the option properties in `done` have been merged in. */
  function MergedFields(m: map<Key, Json>, e: map<Key, Json>, done: set<Key>): (r: map<Key, Json>)
    requires done <= e.Keys
    requires forall k :: k in m && k in e && IsContainer(m[k]) ==> Mergeable(m[k], e[k])
    ensures r.Keys == m.Keys + done
    decreases Obj(m), 0, 1
  {
    map k | k in m.Keys + done :: if k in done then Settled(m, e, k) else m[k]
  }

  /** One more option item merged: it lands at index `n`, in place or appended. */
  lemma MergedItemsStep(xs: seq<Json>, ys: seq<Json>, n: nat)
    requires n < |ys|
    requires forall i :: 0 <= i < |xs| && i < |ys| && IsContainer(xs[i]) ==> Mergeable(xs[i], ys[i])
    ensures n < |xs| ==> MergedItems(xs, ys, n + 1) == MergedItems(xs, ys, n)[n := MergeValue(xs[n], ys[n])]
    ensures n >= |xs| ==> MergedItems(xs, ys, n + 1) == MergedItems(xs, ys, n) + [ys[n]]
  {
  }

  /** One more option property merged. */
  lemma MergedFieldsStep(m: map<Key, Json>, e: map<Key, Json>, done: set<Key>, p: Key)
    requires done <= e.Keys && p in e && p !in done
    requires forall k :: k in m && k in e && IsContainer(m[k]) ==> Mergeable(m[k], e[k])
    ensures MergedFields(m, e, done + {p}) == MergedFields(m, e, done)[p := Settled(m, e, p)]
  {
    var after := MergedFields(m, e, done + {p});
    var expected := MergedFields(m, e, done)[p := Settled(m, e, p)];
    assert after.Keys == expected.Keys;
    forall k | k in after.Keys
      ensures after[k] == expected[k]
    {
      if k != p {
        assert (k in done + {p}) == (k in done);
      }
    }
    assert after == expected;
  }

  /**
   * `_deepMerge(target, source)` as the code runs it: copy the target, then for
   * each property of the source either recurse into a container already there
   * or overwrite. Every call in the code passes exactly one source.
   */
  method DeepMerge(target: Json, source: Json) returns (r: Json)
    requires IsContainer(target) && Mergeable(target, source)
    ensures r == Merged(target, source)
    decreases target, 2
  {
    if target.Arr? {
      var ret := MergeIntoArray(target.items, Items(source));
      r := Arr(ret);
    } else {
      var ret := MergeIntoObject(target.fields, Entries(source));
      r := Obj(ret);
    }
  }

  /** The `retObj = []` case: the copied items, then each option item by index. */
  method MergeIntoArray(xs: seq<Json>, ys: seq<Json>) returns (ret: seq<Json>)
    requires forall i :: 0 <= i < |xs| && i < |ys| && IsContainer(xs[i]) ==> Mergeable(xs[i], ys[i])
    ensures ret == MergedItems(xs, ys, |ys|)
    decreases Arr(xs), 1
  {
    ret := xs;
    var i := 0;
    while i < |ys|
      invariant 0 <= i <= |ys|
      invariant ret == MergedItems(xs, ys, i)
    {
      MergedItemsStep(xs, ys, i);
      if i < |ret| && IsContainer(ret[i]) {
        assert i < |xs| && ret[i] == xs[i];
        var merged := DeepMerge(ret[i], ys[i]);
        ret := ret[i := merged];
      } else if i < |ret| {
        ret := ret[i := ys[i]];
      } else {
        ret := ret + [ys[i]];
      }
      i := i + 1;
    }
  }

  /** The `retObj = {}` case: the copied properties, then each option property. */
  method MergeIntoObject(m: map<Key, Json>, e: map<Key, Json>) returns (ret: map<Key, Json>)
    requires forall k :: k in m && k in e && IsContainer(m[k]) ==> Mergeable(m[k], e[k])
    ensures ret == MergedFields(m, e, e.Keys)
    decreases Obj(m), 1
  {
    ret := m;
    var todo := e.Keys;
    assert e.Keys - todo == {};
    while todo != {}
      invariant todo <= e.Keys
      invariant ret == MergedFields(m, e, e.Keys - todo)
      decreases todo
    {
      var p :| p in todo;
      MergedFieldsStep(m, e, e.Keys - todo, p);
      assert (e.Keys - todo) + {p} == e.Keys - (todo - {p});
      if p in ret && IsContainer(ret[p]) {
        assert p in m && ret[p] == m[p];
        var merged := DeepMerge(ret[p], e[p]);
        ret := ret[p := merged];
      } else {
        ret := ret[p := e[p]];
      }
      todo := todo - {p};
    }
    assert e.Keys - todo == e.Keys;
  }

  /** Merging a value into itself is always within the model. */
  lemma {:induction false} MergeableSelf(v: Json)
    ensures Mergeable(v, v)
    decreases v
  {
    match v
    case Arr(xs) =>
      forall i | 0 <= i < |xs| && IsContainer(xs[i]) ensures Mergeable(xs[i], xs[i]) {
        MergeableSelf(xs[i]);
      }
    case Obj(m) =>
      forall k | k in m && IsContainer(m[k]) ensures Mergeable(m[k], m[k]) {
        MergeableSelf(m[k]);
      }
    case _ =>
  }

  /** Merging a value into itself gives it back. */
  lemma {:induction false} MergeIdempotent(v: Json)
    requires IsContainer(v)
    ensures Mergeable(v, v) && Merged(v, v) == v
    decreases v
  {
    MergeableSelf(v);
    match v
    case Arr(xs) =>
      forall i | 0 <= i < |xs| && IsContainer(xs[i]) ensures Merged(xs[i], xs[i]) == xs[i] {
        MergeIdempotent(xs[i]);
      }
      assert MergedItems(xs, xs, |xs|) == xs;
    case Obj(m) =>
      forall k | k in m ensures Settled(m, m, k) == m[k] {
        if IsContainer(m[k]) {
          MergeIdempotent(m[k]);
        }
      }
      assert MergedFields(m, m, m.Keys) == m;
  }

  /** Options without properties (null, booleans, numbers, the empty string) leave the target as it is. */
  lemma MergeNothing(target: Json, source: Json)
    requires IsContainer(target) && Mergeable(target, source)
    requires source.Null? || source.Bool? || source.Num? || source == Str("")
    ensures Merged(target, source) == target
  {
    if target.Obj? {
      assert MergedFields(target.fields, Entries(source), {}) == target.fields;
    } else {
      assert MergedItems(target.items, [], 0) == target.items;
    }
  }

  /**
   * Property by property: an option not present keeps the default; an option over a
   * non-container default replaces it; an option over a container default is merged
   * into it, so a plain value never replaces a default object or array.
   */
  lemma MergeFieldRule(m: map<Key, Json>, source: Json, k: Key)
    requires Mergeable(Obj(m), source)
    ensures k in Merged(Obj(m), source).fields <==> k in m || k in Entries(source)
    ensures k in m && k !in Entries(source) ==> Merged(Obj(m), source).fields[k] == m[k]
    ensures k in Entries(source) && (k !in m || !IsContainer(m[k])) ==>
      Merged(Obj(m), source).fields[k] == Entries(source)[k]
    ensures k in m && k in Entries(source) && IsContainer(m[k]) ==>
      Merged(Obj(m), source).fields[k] == Merged(m[k], Entries(source)[k])
    ensures k in m && m[k].Obj? ==> Merged(Obj(m), source).fields[k].Obj?
    ensures k in m && m[k].Arr? ==> Merged(Obj(m), source).fields[k].Arr?
  {
    var e := Entries(source);
    assert Merged(Obj(m), source).fields == MergedFields(m, e, e.Keys);
    if k in e {
      assert MergedFields(m, e, e.Keys)[k] == Settled(m, e, k);
      if k in m {
        assert Settled(m, e, k) == MergeValue(m[k], e[k]);
      }
    }
  }

  /**
   * Arrays merge index by index: an option array of plain values overwrites the
   * leading defaults and the remaining defaults stay behind it.
   */
  lemma MergeArrayByIndex(xs: seq<Json>, ys: seq<Json>)
    requires forall i :: 0 <= i < |xs| ==> !IsContainer(xs[i])
    ensures Mergeable(Arr(xs), Arr(ys))
    ensures Merged(Arr(xs), Arr(ys)) == Arr(if |ys| >= |xs| then ys else ys + xs[|ys|..])
  {
    var r := MergedItems(xs, ys, |ys|);
    forall i | 0 <= i < |ys| ensures r[i] == ys[i] {
      if i < |xs| {
        assert !IsContainer(xs[i]);
        assert MergeValue(xs[i], ys[i]) == ys[i];
      }
    }
    if |ys| >= |xs| {
      assert r == ys;
    } else {
      assert r == ys + xs[|ys|..];
    }
  }

  /** The property `name` of an object, or `Null` standing for `undefined`. */
  function Field(v: Json, name: string): (r: Json)
    ensures v.Obj? && Name(name) in v.fields ==> r == v.fields[Name(name)]
    ensures !(v.Obj? && Name(name) in v.fields) ==> r == Null
  {
    if v.Obj? && Name(name) in v.fields then v.fields[Name(name)] else Null
  }

  function Strs(names: seq<string>): (r: Json)
    ensures r.Arr? && |r.items| == |names|
  {
    Arr(seq(|names|, i requires 0 <= i < |names| => Str(names[i])))
  }

  /** SM_Filter's `_defaults`. */
  function Defaults(): (r: Json)
    ensures r.Obj?
  {
    Obj(map[
      Name("overview") := Obj(map[
        Name("selector") := Str(".s-overview"),
        Name("rendersettingsDataAttribute") := Str("rendersettings"),
        Name("filtersDataAttribute") := Str("selectedfilters"),
        Name("error") := Obj(map[
          Name("text") := Str("Geen resultaten"),
          Name("defaults") := Strs(["s-text", "no-results"])])]),
      Name("filterbar") := Obj(map[
        Name("active") := Bool(true),
        Name("selector") := Str(".s-filterbar"),
        Name("categories") := Obj(map[
          Name("dataAttribute") := Str("cats"),
          Name("parent") := Num(0),
          Name("active") := Num(0),
          Name("showAll") := Obj(map[
            Name("active") := Bool(true),
            Name("text") := Str("")])]),
        Name("buttons") := Obj(map[
          Name("defaults") := Strs(["s-btn", "s-btn__filter"]),
          Name("active") := Str("s-active")])]),
      Name("loadmore") := Obj(map[
        Name("active") := Bool(true),
        Name("parent") := Str(""),
        Name("defaults") := Strs(["s-btn", "s-load__more"]),
        Name("hidden") := Str("s-hidden"),
        Name("text") := Str("Load More")])])
  }

  /** `options ? this._deepMerge(this._defaults, options) : this._defaults`. */
  function Resolve(options: Json): (r: Json)
    requires Truthy(options) ==> Canonical(options) && Mergeable(Defaults(), options)
    ensures r.Obj? && r.fields.Keys >= Defaults().fields.Keys
    ensures !Truthy(options) ==> r == Defaults()
  {
    if Truthy(options) then Merged(Defaults(), options) else Defaults()
  }
}
