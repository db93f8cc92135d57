/** The request-parameter normaliser of coingecko/utils.py.

    A Python dict is modelled by class `Dict`, whose `items` keep the
    dict's insertion order and never repeat a key. The pure functions
    `RemoveEmpty`, `RenderAll` (with `Render` for one value) and `Clean`
    specify the three Python functions of coingecko/utils.py; the methods
    `RemoveEmptyDictValues`, `CleanDictValues` and `CleanParams` follow
    those Python functions step by step on `Dict` objects, including the
    in-place rewrite of `clean_dict_values`, and are proved against them. */
module Utils {
  import opened Wrappers
  import Text

  /** The closed set of parameter values the endpoint methods pass:
      `None`, a bool, an int, a str, or a list of str. */
  datatype Value = Absent | Bool(b: bool) | Int(n: int) | Str(s: string) | List(items: seq<string>)

  /** One `key: value` pair of a dict. */
  type Entry = (string, Value)

  /** A dict never holds the same key twice. */
  ghost predicate DistinctKeys(d: seq<Entry>)
  {
    forall i, j :: 0 <= i < j < |d| ==> d[i].0 != d[j].0
  }

  /** `dic.keys()` */
  function Keys(d: seq<Entry>): set<string>
  {
    set i | 0 <= i < |d| :: d[i].0
  }

  /** `dic.get(k)`: the value stored under `k`, if any. */
  function Lookup(d: seq<Entry>, k: string): Option<Value>
  {
    if d == [] then None else if d[0].0 == k then Some(d[0].1) else Lookup(d[1..], k)
  }

  /** `dic[k] = v`: an existing key keeps its position, a new key goes last.
      Afterwards `k` maps to `v` and every other key to what it mapped to. */
  function Store(d: seq<Entry>, k: string, v: Value): (r: seq<Entry>)
    ensures Lookup(r, k) == Some(v)
    ensures forall k' :: k' != k ==> Lookup(r, k') == Lookup(d, k')
  {
    if d == [] then [(k, v)]
    else if d[0].0 == k then
      var r := [(k, v)] + d[1..];
      assert r[1..] == d[1..];
      r
    else
      var r := [d[0]] + Store(d[1..], k, v);
      assert r[1..] == Store(d[1..], k, v);
      r
  }

  // ---------------------------------------------------------------------
  // remove_empty_dict_values (coingecko/utils.py:4-6)

  /** `{k: v for k, v in dic.items() if v is not None}`: never longer than
      the input, and no value of the result is `None`. */
  function RemoveEmpty(d: seq<Entry>): (r: seq<Entry>)
    ensures |r| <= |d|
    ensures forall i :: 0 <= i < |r| ==> !r[i].1.Absent?
  {
    if d == [] then []
    else (if d[0].1.Absent? then [] else [d[0]]) + RemoveEmpty(d[1..])
  }

  /** Removing empty values keeps exactly the pairs whose value is not `None`. */
  lemma {:induction false} RemoveEmptyEntries(d: seq<Entry>)
    ensures forall e :: e in RemoveEmpty(d) <==> e in d && !e.1.Absent?
  {
    if d != [] {
      RemoveEmptyEntries(d[1..]);
      assert d == [d[0]] + d[1..];
    }
  }

  /** Filtering keeps the order of the pairs it keeps. */
  lemma {:induction false} RemoveEmptyAppend(a: seq<Entry>, b: seq<Entry>)
    ensures RemoveEmpty(a + b) == RemoveEmpty(a) + RemoveEmpty(b)
  {
    if a != [] {
      assert (a + b)[0] == a[0] && (a + b)[1..] == a[1..] + b;
      RemoveEmptyAppend(a[1..], b);
    } else {
      assert a + b == b;
    }
  }

  /** A dict without `None` values is left as it is, and only such a dict. */
  lemma {:induction false} RemoveEmptyIdentity(d: seq<Entry>)
    ensures RemoveEmpty(d) == d <==> forall i :: 0 <= i < |d| ==> !d[i].1.Absent?
  {
    if d != [] {
      RemoveEmptyIdentity(d[1..]);
      if d[0].1.Absent? {
        assert |RemoveEmpty(d)| <= |d[1..]| < |d|;
      } else {
        assert RemoveEmpty(d) == [d[0]] + RemoveEmpty(d[1..]);
        assert (forall i :: 0 <= i < |d| ==> !d[i].1.Absent?) <==>
               (forall i :: 0 <= i < |d[1..]| ==> !d[1..][i].1.Absent?) by {
          forall i | 0 < i < |d| ensures d[i] == d[1..][i - 1] { }
        }
        assert d == [d[0]] + d[1..];
      }
    }
  }

  /** A dict whose values are all `None` becomes `{}`. */
  lemma {:induction false} RemoveEmptyAllAbsent(d: seq<Entry>)
    requires forall i :: 0 <= i < |d| ==> d[i].1.Absent?
    ensures RemoveEmpty(d) == []
  {
    if d != [] {
      assert forall i :: 0 <= i < |d[1..]| ==> d[1..][i] == d[i + 1];
      RemoveEmptyAllAbsent(d[1..]);
    }
  }

  /** Every key of the result is a key of the input. */
  lemma {:induction false} RemoveEmptyKeys(d: seq<Entry>)
    ensures forall k :: k in Keys(RemoveEmpty(d)) <==>
                        exists i :: 0 <= i < |d| && d[i].0 == k && !d[i].1.Absent?
  {
    RemoveEmptyEntries(d);
    forall k ensures k in Keys(RemoveEmpty(d)) <==>
                     exists i :: 0 <= i < |d| && d[i].0 == k && !d[i].1.Absent? {
      var r := RemoveEmpty(d);
      if k in Keys(r) {
        var j :| 0 <= j < |r| && r[j].0 == k;
        assert r[j] in r;
        var i :| 0 <= i < |d| && d[i] == r[j];
      }
      if exists i :: 0 <= i < |d| && d[i].0 == k && !d[i].1.Absent? {
        var i :| 0 <= i < |d| && d[i].0 == k && !d[i].1.Absent?;
        assert d[i] in d;
        var j :| 0 <= j < |r| && r[j] == d[i];
      }
    }
  }

  /** The result of a dict is again a dict: keys stay distinct. */
  lemma {:induction false} RemoveEmptyKeepsDistinct(d: seq<Entry>)
    requires DistinctKeys(d)
    ensures DistinctKeys(RemoveEmpty(d))
  {
    if d != [] {
      RemoveEmptyKeepsDistinct(d[1..]);
      RemoveEmptyEntries(d[1..]);
      if !d[0].1.Absent? {
        var r := RemoveEmpty(d[1..]);
        forall j | 0 <= j < |r| ensures r[j].0 != d[0].0 {
          assert r[j] in r;
          var i :| 0 <= i < |d[1..]| && d[1..][i] == r[j];
          assert d[i + 1] == r[j];
        }
      }
    }
  }

  // ---------------------------------------------------------------------
  // clean_dict_values (coingecko/utils.py:9-21)

  /** The rewrite of one value: a bool becomes `str(value).lower()`, a list
      becomes `",".join(...)`, anything else is left untouched. */
  function Render(v: Value): (r: Value)
    ensures !r.Bool? && !r.List?
    ensures r.Absent? <==> v.Absent?
    ensures v.Absent? || v.Int? || v.Str? ==> r == v
  {
    match v
    case Bool(b) => Str(if b then "true" else "false")
    case List(xs) => Str(Text.Join(",", xs))
    case _ => v
  }

  /** A bool renders as exactly "true" or "false", matching its value. */
  lemma RenderBool(b: bool)
    ensures Render(Bool(b)) == Str("true") <==> b
    ensures Render(Bool(b)) == Str("false") <==> !b
  {
  }

  /** A list renders as one string from which `split(",")` recovers its
      elements, as long as no element itself holds a comma. */
  lemma RenderListRoundTrip(xs: seq<string>)
    requires xs != []
    requires forall x :: x in xs ==> ',' !in x
    ensures Render(List(xs)).Str?
    ensures Text.Split(',', Render(List(xs)).s) == xs
  {
    Text.SplitJoin(',', xs);
  }

  /** Commas appear only between elements: the rendering begins with the
      first element and ends with the last. */
  lemma RenderListEdges(xs: seq<string>)
    requires xs != []
    ensures var s := Render(List(xs)).s; var last := xs[|xs| - 1];
            xs[0] <= s && |last| <= |s| && s[|s| - |last|..] == last
  {
    Text.JoinEdges(",", xs);
  }

  lemma RenderListExample()
    ensures Render(List(["foo", "bar"])) == Str("foo,bar")
  {
  }

  /** Rendering is idempotent. */
  lemma RenderIdempotent(v: Value)
    ensures Render(Render(v)) == Render(v)
  {
  }

  /** The dict after `clean_dict_values`: same keys in the same order, each
      value rendered, so no bool or list is left and `None` stays `None`. */
  function RenderAll(d: seq<Entry>): (r: seq<Entry>)
    ensures |r| == |d|
    ensures forall i :: 0 <= i < |r| ==>
              r[i].0 == d[i].0 && !r[i].1.Bool? && !r[i].1.List? && (r[i].1.Absent? <==> d[i].1.Absent?)
  {
    if d == [] then [] else [(d[0].0, Render(d[0].1))] + RenderAll(d[1..])
  }

  /** `clean_dict_values` keeps every key in its place and rewrites each
      value on its own. */
  lemma {:induction false} RenderAllPointwise(d: seq<Entry>)
    ensures |RenderAll(d)| == |d|
    ensures forall i :: 0 <= i < |d| ==> RenderAll(d)[i] == (d[i].0, Render(d[i].1))
  {
    if d != [] {
      RenderAllPointwise(d[1..]);
      forall i | 0 < i < |d| ensures RenderAll(d)[i] == (d[i].0, Render(d[i].1)) {
        assert RenderAll(d)[i] == RenderAll(d[1..])[i - 1];
      }
    }
  }

  /** The key set is unchanged, strings and ints pass through. */
  lemma RenderAllKeys(d: seq<Entry>)
    ensures |RenderAll(d)| == |d| && Keys(RenderAll(d)) == Keys(d)
    ensures forall i :: 0 <= i < |d| && (d[i].1.Str? || d[i].1.Int?) ==> RenderAll(d)[i] == d[i]
  {
    RenderAllPointwise(d);
    var r := RenderAll(d);
    forall k | k in Keys(d) ensures k in Keys(r) {
      var i :| 0 <= i < |d| && d[i].0 == k;
      assert r[i].0 == k;
    }
  }

  // ---------------------------------------------------------------------
  // clean_params (coingecko/utils.py:24-30)

  /** `clean_params`: `None` for `None` or an empty dict, otherwise the
      dict without `None` values and with every value rendered. */
  function Clean(params: Option<seq<Entry>>): (r: Option<seq<Entry>>)
    ensures r.None? <==> params.None? || params.value == []
    ensures r.Some? ==> |r.value| <= |params.value|
    ensures r.Some? ==> forall i :: 0 <= i < |r.value| ==> r.value[i].1.Str? || r.value[i].1.Int?
  {
    if params.None? || params.value == [] then None
    else Some(RenderAll(RemoveEmpty(params.value)))
  }

  /** `None` comes back exactly for `None` and for the empty dict; an
      empty dict comes back exactly when every input value was `None`. */
  lemma CleanEmpty(params: Option<seq<Entry>>)
    ensures Clean(params) == None <==> params == None || params == Some([])
    ensures Clean(params) == Some([]) <==>
            params.Some? && params.value != [] &&
            forall i :: 0 <= i < |params.value| ==> params.value[i].1.Absent?
  {
    if params.Some? && params.value != [] {
      var d := params.value;
      RenderAllPointwise(RemoveEmpty(d));
      RemoveEmptyEntries(d);
      if !forall i :: 0 <= i < |d| ==> d[i].1.Absent? {
        var i :| 0 <= i < |d| && !d[i].1.Absent?;
        assert d[i] in d;
      }
    }
  }

  /** The output keys are exactly the input keys whose value is not `None`. */
  lemma CleanKeys(d: seq<Entry>)
    requires d != []
    ensures Clean(Some(d)).Some?
    ensures forall k :: k in Keys(Clean(Some(d)).value) <==>
                        exists i :: 0 <= i < |d| && d[i].0 == k && !d[i].1.Absent?
  {
    RenderAllKeys(RemoveEmpty(d));
    RemoveEmptyKeys(d);
  }

  /** A key of a dict is sent exactly when its value is not `None`. */
  lemma CleanKeepsKey(d: seq<Entry>, i: nat)
    requires DistinctKeys(d) && i < |d|
    ensures Clean(Some(d)).Some?
    ensures d[i].0 in Keys(Clean(Some(d)).value) <==> !d[i].1.Absent?
  {
    CleanKeys(d);
  }

  /** Looking a key up in the output yields the rendered input value, or
      nothing when the key was absent or mapped to `None`. */
  lemma {:induction false} CleanLookup(d: seq<Entry>, k: string)
    requires DistinctKeys(d)
    ensures Lookup(RenderAll(RemoveEmpty(d)), k) ==
            match Lookup(d, k)
            case None => None
            case Some(v) => if v.Absent? then None else Some(Render(v))
  {
    if d != [] {
      CleanLookup(d[1..], k);
      if d[0].0 == k {
        NotInRest(d, k);
        var rest := RemoveEmpty(d[1..]);
        if d[0].1.Absent? {
          assert RemoveEmpty(d) == rest;
        } else {
          var x := [d[0]] + rest;
          assert RemoveEmpty(d) == x;
          assert x[0] == d[0] && x[1..] == rest;
          assert RenderAll(x) == [(k, Render(d[0].1))] + RenderAll(rest);
        }
      } else {
        var rest := RemoveEmpty(d[1..]);
        if !d[0].1.Absent? {
          var x := [d[0]] + rest;
          assert RemoveEmpty(d) == x;
          assert x[0] == d[0] && x[1..] == rest;
          var y := [(d[0].0, Render(d[0].1))] + RenderAll(rest);
          assert RenderAll(x) == y && y[1..] == RenderAll(rest);
          assert y[0].0 != k;
          assert Lookup(y, k) == Lookup(RenderAll(rest), k);
        } else {
          assert RemoveEmpty(d) == rest;
        }
        assert Lookup(d, k) == Lookup(d[1..], k);
      }
    }
  }

  /** The key at position `i` is sent exactly when its value is not
      `None`, and then with that value rendered. */
  lemma CleanSendsAt(d: seq<Entry>, i: nat)
    requires DistinctKeys(d) && i < |d|
    ensures Clean(Some(d)).Some?
    ensures d[i].0 in Keys(Clean(Some(d)).value) <==> !d[i].1.Absent?
    ensures !d[i].1.Absent? ==> Lookup(Clean(Some(d)).value, d[i].0) == Some(Render(d[i].1))
  {
    CleanKeepsKey(d, i);
    CleanLookup(d, d[i].0);
    LookupAt(d, i);
  }

  /** With distinct keys, looking up the key at position `i` finds the
      value at position `i`. */
  lemma {:induction false} LookupAt(d: seq<Entry>, i: nat)
    requires DistinctKeys(d) && i < |d|
    ensures Lookup(d, d[i].0) == Some(d[i].1)
  {
    if i > 0 {
      assert d[0].0 != d[i].0;
      assert d[1..][i - 1] == d[i];
      assert DistinctKeys(d[1..]) by {
        forall a, b | 0 <= a < b < |d[1..]| ensures d[1..][a].0 != d[1..][b].0 {
          assert d[1..][a] == d[a + 1] && d[1..][b] == d[b + 1];
        }
      }
      LookupAt(d[1..], i - 1);
    }
  }

  /** With distinct keys, the first key does not occur again. */
  lemma NotInRest(d: seq<Entry>, k: string)
    requires DistinctKeys(d) && d != [] && d[0].0 == k
    ensures Lookup(d[1..], k) == None
    ensures Lookup(RenderAll(RemoveEmpty(d[1..])), k) == None
  {
    LookupMissing(d[1..], k);
    RemoveEmptyKeys(d[1..]);
    RenderAllKeys(RemoveEmpty(d[1..]));
    LookupMissing(RenderAll(RemoveEmpty(d[1..])), k);
  }

  lemma {:induction false} LookupMissing(d: seq<Entry>, k: string)
    ensures Lookup(d, k) == None <==> k !in Keys(d)
  {
    if d != [] {
      LookupMissing(d[1..], k);
      assert Keys(d) == {d[0].0} + Keys(d[1..]) by {
        forall x | x in Keys(d) ensures x in {d[0].0} + Keys(d[1..]) {
          var i :| 0 <= i < |d| && d[i].0 == x;
          if i > 0 { assert d[1..][i - 1].0 == x; }
        }
        forall x | x in Keys(d[1..]) ensures x in Keys(d) {
          var i :| 0 <= i < |d[1..]| && d[1..][i].0 == x;
          assert d[i + 1].0 == x;
        }
      }
    }
  }

  /** Cleaning a non-empty cleaned dict changes nothing. */
  lemma CleanIdempotent(params: Option<seq<Entry>>)
    requires Clean(params).Some? && Clean(params).value != []
    ensures Clean(Clean(params)) == Clean(params)
  {
    var d := Clean(params).value;
    RemoveEmptyIdentity(d);
    RenderAllPointwise(d);
    forall i | 0 <= i < |d| ensures RenderAll(d)[i] == d[i] {
      assert Render(d[i].1) == d[i].1;
    }
    assert RenderAll(RemoveEmpty(d)) == d;
  }

  /** ... and the one exception: a dict whose values are all `None` cleans
      to `{}`, which cleans to `None`. */
  lemma CleanNotIdempotentOnAllAbsent(d: seq<Entry>)
    requires d != [] && forall i :: 0 <= i < |d| ==> d[i].1.Absent?
    ensures Clean(Some(d)) == Some([])
    ensures Clean(Clean(Some(d))) == None
  {
    CleanEmpty(Some(d));
  }

  /** The example of test/utils_test.py:24-28. */
  lemma CleanExample()
    ensures Clean(Some([("a", Absent), ("b", List(["foo", "bar"])), ("c", Bool(true))]))
         == Some([("b", Str("foo,bar")), ("c", Str("true"))])
  {
    var d: seq<Entry> := [("a", Absent), ("b", List(["foo", "bar"])), ("c", Bool(true))];
    var kept: seq<Entry> := [("b", List(["foo", "bar"])), ("c", Bool(true))];
    assert d[1..] == kept && kept[1..][1..] == [];
    assert RemoveEmpty(d) == kept;
    assert Text.Join(",", ["foo", "bar"]) == "foo,bar";
    assert RenderAll(kept) == [("b", Str("foo,bar")), ("c", Str("true"))];
  }

  // ---------------------------------------------------------------------
  // The dict objects coingecko/utils.py passes around.

  /** A Python dict: its pairs in insertion order. */
  class Dict {
    var items: seq<Entry>

    ghost predicate Valid()
      reads this
    {
      DistinctKeys(items)
    }

    /** A dict built from pairs with distinct keys, as every dict display
        of the modelled endpoint methods is. */
    constructor (items: seq<Entry>)
      requires DistinctKeys(items)
      ensures Valid() && this.items == items
    {
      this.items := items;
    }

    /** `dic[k] = v` */
    method Set(k: string, v: Value)
      requires Valid()
      modifies this
      ensures Valid() && items == Store(old(items), k, v)
    {
      StoreKeepsDistinct(items, k, v);
      items := Store(items, k, v);
    }
  }

  /** The contents of a possibly-`None` dict, as a value. */
  function View(d: Dict?): Option<seq<Entry>>
    reads d
  {
    if d == null then None else Some(d.items)
  }

  lemma {:induction false} StoreKeepsDistinct(d: seq<Entry>, k: string, v: Value)
    requires DistinctKeys(d)
    ensures DistinctKeys(Store(d, k, v))
    ensures Keys(Store(d, k, v)) == Keys(d) + {k}
  {
    if d == [] {
      assert Keys(Store(d, k, v)) == {k} by { assert Store(d, k, v)[0].0 == k; }
    } else {
      var s := Store(d, k, v);
      KeysCons(d);
      KeysCons(s);
      NotInRestKeys(d);
      if d[0].0 == k {
        assert s[1..] == d[1..];
      } else {
        StoreKeepsDistinct(d[1..], k, v);
        assert s[0] == d[0] && s[1..] == Store(d[1..], k, v);
        forall j | 0 <= j < |s[1..]| ensures s[1..][j].0 != d[0].0 {
          assert s[1..][j].0 in Keys(s[1..]);
        }
      }
    }
  }

  lemma KeysCons(d: seq<Entry>)
    requires d != []
    ensures Keys(d) == {d[0].0} + Keys(d[1..])
  {
    forall x | x in Keys(d) ensures x in {d[0].0} + Keys(d[1..]) {
      var i :| 0 <= i < |d| && d[i].0 == x;
      if i > 0 { assert d[1..][i - 1].0 == x; }
    }
    forall x | x in Keys(d[1..]) ensures x in Keys(d) {
      var i :| 0 <= i < |d[1..]| && d[1..][i].0 == x;
      assert d[i + 1].0 == x;
    }
  }

  lemma NotInRestKeys(d: seq<Entry>)
    requires DistinctKeys(d) && d != []
    ensures d[0].0 !in Keys(d[1..])
  {
  }

  /** With distinct keys, storing under the key at position `i` replaces that pair. */
  lemma {:induction false} StoreAt(d: seq<Entry>, i: nat, v: Value)
    requires DistinctKeys(d) && i < |d|
    ensures Store(d, d[i].0, v) == d[i := (d[i].0, v)]
  {
    if i > 0 {
      assert d[0].0 != d[i].0;
      assert d[1..][i - 1] == d[i];
      StoreAt(d[1..], i - 1, v);
      assert [d[0]] + d[1..][i - 1 := (d[i].0, v)] == d[i := (d[i].0, v)];
    }
  }

  /** `remove_empty_dict_values`: builds a fresh dict, leaving `dic` as it was. */
  method RemoveEmptyDictValues(dic: Dict) returns (r: Dict)
    requires dic.Valid()
    ensures fresh(r) && r.Valid()
    ensures r.items == RemoveEmpty(dic.items)
  {
    RemoveEmptyKeepsDistinct(dic.items);
    r := new Dict(RemoveEmpty(dic.items));
  }

  /** `clean_dict_values`: rewrites the bool and list values of `dic` in
      place and returns the same dict. */
  method CleanDictValues(dic: Dict) returns (r: Dict)
    requires dic.Valid()
    modifies dic
    ensures r == dic && dic.Valid()
    ensures dic.items == RenderAll(old(dic.items))
  {
    ghost var orig := dic.items;
    var i := 0;
    while i < |dic.items|
      invariant dic.Valid()
      invariant 0 <= i <= |dic.items| == |orig|
      invariant forall j :: 0 <= j < |orig| ==> dic.items[j].0 == orig[j].0
      invariant forall j :: 0 <= j < i ==> dic.items[j].1 == Render(orig[j].1)
      invariant forall j :: i <= j < |orig| ==> dic.items[j].1 == orig[j].1
    {
      var (key, value) := dic.items[i];
      StoreAt(dic.items, i, Render(value));
      if value.Bool? {
        dic.Set(key, Str(if value.b then "true" else "false"));
      } else if value.List? {
        dic.Set(key, Str(Text.Join(",", value.items)));
      }
      i := i + 1;
    }
    RenderAllPointwise(orig);
    r := dic;
  }

  /** `clean_params`: `None` for `None` or `{}`; otherwise a fresh cleaned
      dict. It has no `modifies` clause: the caller's dict is never changed. */
  method CleanParams(params: Dict?) returns (r: Dict?)
    requires params != null ==> params.Valid()
    ensures r != null ==> fresh(r) && r.Valid()
    ensures View(r) == Clean(View(params))
  {
    if params == null || params.items == [] {
      return null;
    }
    var p := RemoveEmptyDictValues(params);
    p := CleanDictValues(p);
    return p;
  }
}
