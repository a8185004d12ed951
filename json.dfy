/**
 * Parsed JSON values as Python's `json.load` produces them, and the dict
 * operations the scripts use on JSON objects.
 *
 * An object is kept as its sequence of key/value pairs so that iteration
 * order is the order of the JSON text. The pairs are read as a Python dict:
 * a key's value is the value of its LAST pair (json.load keeps the last of
 * repeated keys), assignment overwrites in place and appends a new key at the
 * end, and a key's position is its first occurrence.
 */
module Json {
  import opened Wrappers

  datatype Json =
    | JNull
    | JBool(b: bool)
    | JInt(n: int)
    | JStr(s: string)
    | JList(items: seq<Json>)
    | JObj(fields: Fields)

  type Fields = seq<(string, Json)>

  /** The keys present in an object. */
  function Keys(f: Fields): set<string>
    decreases |f|
  {
    if f == [] then {} else Keys(f[..|f| - 1]) + {f[|f| - 1].0}
  }

  /** No key occurs twice: the shape of every dict the scripts build. */
  ghost predicate UniqueKeys(f: Fields)
    decreases |f|
  {
    f == [] || (UniqueKeys(f[..|f| - 1]) && f[|f| - 1].0 !in Keys(f[..|f| - 1]))
  }

  lemma {:induction false} KeysIndex(f: Fields, key: string)
    ensures key in Keys(f) <==> exists i :: 0 <= i < |f| && f[i].0 == key
    decreases |f|
  {
    if f != [] {
      var n := |f| - 1;
      KeysIndex(f[..n], key);
      if key in Keys(f[..n]) {
        var i :| 0 <= i < n && f[..n][i].0 == key;
        assert f[i].0 == key;
      }
      if exists i :: 0 <= i < |f| && f[i].0 == key {
        var i :| 0 <= i < |f| && f[i].0 == key;
        if i < n { assert f[..n][i].0 == key; }
      }
    }
  }

  lemma KeysSnoc(f: Fields, p: (string, Json))
    ensures Keys(f + [p]) == Keys(f) + {p.0}
  {
    assert (f + [p])[..|f|] == f;
  }

  lemma {:induction false} KeysConcat(f: Fields, g: Fields)
    ensures Keys(f + g) == Keys(f) + Keys(g)
    decreases |g|
  {
    if g == [] {
      assert f + g == f;
    } else {
      var n := |g| - 1;
      assert f + g == (f + g[..n]) + [g[n]];
      KeysSnoc(f + g[..n], g[n]);
      KeysConcat(f, g[..n]);
    }
  }

  /** `d.get(key)`: the value of the last pair carrying `key`, if any. */
  function Get(f: Fields, key: string): (r: Option<Json>)
    ensures r.None? <==> key !in Keys(f)
    decreases |f|
  {
    if f == [] then None
    else if f[|f| - 1].0 == key then Some(f[|f| - 1].1)
      else Get(f[..|f| - 1], key)
  }

  /** `get` returns the value of the last pair carrying the key. */
  lemma {:induction false} GetLast(f: Fields, i: nat)
    requires i < |f| && forall j :: i < j < |f| ==> f[j].0 != f[i].0
    ensures Get(f, f[i].0) == Some(f[i].1)
    decreases |f|
  {
    var n := |f| - 1;
    if i < n {
      assert forall j :: i < j < n ==> f[..n][j] == f[j];
      GetLast(f[..n], i);
    }
  }

  /** In a dict without repeated keys every pair is what `get` returns. */
  lemma {:induction false} GetUnique(f: Fields, i: nat)
    requires UniqueKeys(f) && i < |f|
    ensures Get(f, f[i].0) == Some(f[i].1)
    decreases |f|
  {
    var n := |f| - 1;
    if i < n {
      KeysIndex(f[..n], f[i].0);
      assert f[..n][i] == f[i];
      GetUnique(f[..n], i);
    }
  }

  lemma Single(p: (string, Json))
    ensures Keys([p]) == {p.0} && UniqueKeys([p])
    ensures Get([p], p.0) == Some(p.1)
    ensures forall k :: k != p.0 ==> Get([p], k) == None
  {
    assert [p][..0] == [];
  }

  /** `get` on a concatenation: the later part wins. */
  lemma {:induction false} GetConcat(f: Fields, g: Fields, key: string)
    ensures Get(f + g, key) == if key in Keys(g) then Get(g, key) else Get(f, key)
    decreases |g|
  {
    KeysConcat(f, g);
    if g != [] {
      var h := f + g;
      assert h[..|h| - 1] == f + g[..|g| - 1];
      GetConcat(f, g[..|g| - 1], key);
      KeysConcat(f, g[..|g| - 1]);
    } else {
      assert f + g == f;
    }
  }

  /** Overwrites every pair carrying `key`. */
  function Overwrite(f: Fields, key: string, v: Json): (r: Fields)
    requires key in Keys(f)
    ensures |r| == |f| && forall i :: 0 <= i < |f| ==> r[i].0 == f[i].0
    ensures Keys(r) == Keys(f)
    ensures Get(r, key) == Some(v)
    ensures forall k :: k != key ==> Get(r, k) == Get(f, k)
    ensures UniqueKeys(f) ==> UniqueKeys(r)
    decreases |f|
  {
    var n := |f| - 1;
    var last := if f[n].0 == key then (key, v) else f[n];
    var front := if key in Keys(f[..n]) then Overwrite(f[..n], key, v) else f[..n];
    var r := front + [last];
    assert r[..n] == front;
    r
  }

  /** `d[key] = v`: overwrites in place when `key` is present, appends otherwise. */
  function Put(f: Fields, key: string, v: Json): (r: Fields)
    ensures Keys(r) == Keys(f) + {key}
    ensures Get(r, key) == Some(v)
    ensures forall k :: k != key ==> Get(r, k) == Get(f, k)
    ensures key in Keys(f) ==> |r| == |f| && forall i :: 0 <= i < |f| ==> r[i].0 == f[i].0
    ensures key !in Keys(f) ==> r == f + [(key, v)]
    ensures UniqueKeys(f) ==> UniqueKeys(r)
  {
    if key in Keys(f) then Overwrite(f, key, v)
    else
      var r := f + [(key, v)];
      assert r[..|f|] == f;
      r
  }

  /** `d.pop(key, None)`, the returned value discarded: `key` is gone, nothing else changes. */
  function Pop(f: Fields, key: string): (r: Fields)
    ensures Keys(r) == Keys(f) - {key}
    ensures Get(r, key) == None
    ensures forall k :: k != key ==> Get(r, k) == Get(f, k)
    ensures |r| <= |f|
    ensures key !in Keys(f) ==> r == f
    ensures UniqueKeys(f) ==> UniqueKeys(r)
    decreases |f|
  {
    if f == [] then []
    else
      var n := |f| - 1;
      var front := Pop(f[..n], key);
      if f[n].0 == key then front
      else
        var r := front + [f[n]];
        assert r[..|front|] == front;
        r
  }

  /** `{**f, **g}`: the pairs of `g` assigned one by one onto `f`. */
  function Update(f: Fields, g: Fields): (r: Fields)
    ensures Keys(r) == Keys(f) + Keys(g)
    ensures forall k :: Get(r, k) == if k in Keys(g) then Get(g, k) else Get(f, k)
    ensures UniqueKeys(f) ==> UniqueKeys(r)
    decreases |g|
  {
    if g == [] then f
    else
      var n := |g| - 1;
      Put(Update(f, g[..n]), g[n].0, g[n].1)
  }

  /** The position of the first pair carrying `key`: where a dict built from the pairs keeps it. */
  ghost function FirstIndex(f: Fields, key: string): (r: nat)
    requires key in Keys(f)
    ensures r < |f| && f[r].0 == key
    ensures forall j :: 0 <= j < r ==> f[j].0 != key
    decreases |f|
  {
    assert f != [];
    var n := |f| - 1;
    if key in Keys(f[..n]) then FirstIndex(f[..n], key)
    else
      KeysIndex(f[..n], key);
      assert forall j :: 0 <= j < n ==> f[..n][j] == f[j];
      n
  }

  lemma KeyAt(f: Fields, i: nat)
    requires i < |f|
    ensures f[i].0 in Keys(f)
  {
    KeysIndex(f, f[i].0);
  }

  /** The keys of a dict built from the pairs are keys of the pairs. */
  lemma UpdateKeys(g: Fields)
    ensures forall i :: 0 <= i < |Update([], g)| ==> Update([], g)[i].0 in Keys(g)
  {
    var r := Update([], g);
    forall i | 0 <= i < |r|
      ensures r[i].0 in Keys(g)
    {
      KeyAt(r, i);
    }
  }

  /** Pairs after the first occurrence of a key do not move it. */
  lemma FirstIndexFront(g: Fields, key: string)
    requires g != [] && key in Keys(g[..|g| - 1])
    ensures FirstIndex(g, key) == FirstIndex(g[..|g| - 1], key)
  {
  }

  /** The keys of `r` are keys of `f`, and they come in the order of their first occurrence in `f`. */
  ghost predicate InFirstOccurrenceOrder(r: Fields, f: Fields) {
    forall i, j :: 0 <= i < j < |r| ==>
      && r[i].0 in Keys(f) && r[j].0 in Keys(f)
      && FirstIndex(f, r[i].0) < FirstIndex(f, r[j].0)
  }

  /** Assigning the pairs one by one into an empty dict orders its keys by their first occurrence. */
  lemma {:induction false} UpdateOrder(g: Fields)
    ensures InFirstOccurrenceOrder(Update([], g), g)
    decreases |g|
  {
    UpdateKeys(g);
    if g != [] {
      var n := |g| - 1;
      var g' := g[..n];
      UpdateOrder(g');
      UpdateStepOrder(g);
    }
  }

  /** One more pair keeps the first-occurrence order of the keys. */
  lemma UpdateStepOrder(g: Fields)
    requires g != []
    requires InFirstOccurrenceOrder(Update([], g[..|g| - 1]), g[..|g| - 1])
    ensures InFirstOccurrenceOrder(Update([], g), g)
  {
    var r := Update([], g);
    forall i, j | 0 <= i < j < |r|
      ensures r[i].0 in Keys(g) && r[j].0 in Keys(g) && FirstIndex(g, r[i].0) < FirstIndex(g, r[j].0)
    {
      StepPair(g, i, j);
    }
  }

  lemma StepPair(g: Fields, i: nat, j: nat)
    requires g != []
    requires InFirstOccurrenceOrder(Update([], g[..|g| - 1]), g[..|g| - 1])
    requires i < j < |Update([], g)|
    ensures Update([], g)[i].0 in Keys(g) && Update([], g)[j].0 in Keys(g)
    ensures FirstIndex(g, Update([], g)[i].0) < FirstIndex(g, Update([], g)[j].0)
  {
    var n := |g| - 1;
    var g' := g[..n];
    var r' := Update([], g');
    var r := Update([], g);
    UpdateKeys(g);
    UpdateKeys(g');
    assert r == Put(r', g[n].0, g[n].1);
    if g[n].0 in Keys(r') {
      assert r[i].0 == r'[i].0 && r[j].0 == r'[j].0;
      FirstIndexFront(g, r[i].0);
      FirstIndexFront(g, r[j].0);
    } else {
      assert r == r' + [g[n]];
      assert r[i] == r'[i];
      FirstIndexFront(g, r[i].0);
      if j < |r'| {
        assert r[j] == r'[j];
        FirstIndexFront(g, r[j].0);
      } else {
        assert r[j].0 == g[n].0 && g[n].0 !in Keys(g');
      }
    }
  }

  /**
   * `d.items()`: each distinct key once, with its value, in the order of
   * the key's first occurrence; this is the dict json.load builds from the
   * pairs as written.
   */
  function Items(f: Fields): (r: Fields)
    ensures UniqueKeys(r)
    ensures Keys(r) == Keys(f)
    ensures forall k :: Get(r, k) == Get(f, k)
    ensures InFirstOccurrenceOrder(r, f)
  {
    UpdateOrder(f);
    Update([], f)
  }

  /** Pairs without repeated keys already are their own items. */
  lemma {:induction false} ItemsOfUnique(f: Fields)
    requires UniqueKeys(f)
    ensures Items(f) == f
  {
    UpdateOfUnique(f);
  }

  lemma {:induction false} UpdateOfUnique(f: Fields)
    requires UniqueKeys(f)
    ensures Update([], f) == f
    decreases |f|
  {
    if f != [] {
      var n := |f| - 1;
      UpdateOfUnique(f[..n]);
      assert f == f[..n] + [f[n]];
    }
  }


  /** The name Python gives the type of a value, as it appears in error messages. */
  function TypeName(v: Json): string {
    match v
    case JNull => "NoneType"
    case JBool(_) => "bool"
    case JInt(_) => "int"
    case JStr(_) => "str"
    case JList(_) => "list"
    case JObj(_) => "dict"
  }
}
