/** merge_options: the recursive merge of caller options onto the defaults
    object (js/novicell.map.js, lines 146-155), and the defaults it is used with
    (lines 48-62). */
module OptionsMerge {
  import opened JsValue

  /** The inputs on which the merge is an object merge: wherever the default
      value under a key the source sets is an object (`instanceof Object`), it
      is a plain object and the source value is a plain object too. */
  predicate Mergeable(obj: Object, src: Object)
    decreases Obj(src)
  {
    forall k :: k in src && k in obj && IsObject(obj[k]) ==>
      obj[k].Obj? && src[k].Obj? && Mergeable(obj[k].fields, src[k].fields)
  }

  /** The object merge_options leaves behind in `obj`: every key of `src`
      overwrites, except that where the default is an object the two are
      merged recursively; keys `src` does not name keep their default. */
  function Merge(obj: Object, src: Object): (r: Object)
    requires Mergeable(obj, src)
    ensures r.Keys == obj.Keys + src.Keys
    decreases Obj(src)
  {
    map k | k in obj.Keys + src.Keys ::
      if k !in src then obj[k]
      else if k in obj && IsObject(obj[k]) then Obj(Merge(obj[k].fields, src[k].fields))
      else src[k]
  }

  /** merge_options itself: `Object.keys(src).forEach`, assigning into the
      object key by key and recursing into nested default objects; the merged
      object is returned. */
  method MergeOptions(obj: Object, src: Object) returns (r: Object)
    requires Mergeable(obj, src)
    ensures r == Merge(obj, src)
    decreases Obj(src)
  {
    r := obj;
    var pending := src.Keys;
    while pending != {}
      invariant pending <= src.Keys
      invariant r.Keys == obj.Keys + (src.Keys - pending)
      invariant forall k :: k in r ==>
        r[k] == if k in src && k !in pending then Merge(obj, src)[k] else obj[k]
      decreases pending
    {
      var key :| key in pending;
      if key in r && IsObject(r[key]) {
        var merged := MergeOptions(r[key].fields, src[key].fields);
        r := r[key := Obj(merged)];
      } else {
        r := r[key := src[key]];
      }
      pending := pending - {key};
    }
  }

  /** The value found by following a chain of property names, as in
      `v.mapOptions.center.lat`. */
  function Lookup(v: Value, path: seq<string>): Option<Value>
    decreases path
  {
    if path == [] then Some(v)
    else if v.Obj? && path[0] in v.fields then Lookup(v.fields[path[0]], path[1..])
    else None
  }

  /** Right bias: every non-object value the caller sets, at any depth, is the
      value the merged options hold there. */
  lemma {:induction false} MergeIsRightBiased(obj: Object, src: Object, path: seq<string>, x: Value)
    requires Mergeable(obj, src)
    requires Lookup(Obj(src), path) == Some(x) && !x.Obj?
    ensures Lookup(Obj(Merge(obj, src)), path) == Some(x)
    decreases path
  {
    var r := Merge(obj, src);
    var k, rest := path[0], path[1..];
    assert k in src && Lookup(src[k], rest) == Some(x);
    if k in obj && IsObject(obj[k]) {
      if rest == [] {
        assert false;
      }
      MergeIsRightBiased(obj[k].fields, src[k].fields, rest, x);
      assert r[k] == Obj(Merge(obj[k].fields, src[k].fields));
    } else {
      assert r[k] == src[k];
    }
  }

  /** Defaults survive: a value of the defaults, at any depth, that the caller
      does not set is still there after the merge. */
  lemma {:induction false} MergeKeepsDefaults(obj: Object, src: Object, path: seq<string>, x: Value)
    requires Mergeable(obj, src)
    requires Lookup(Obj(obj), path) == Some(x) && Lookup(Obj(src), path).None?
    ensures Lookup(Obj(Merge(obj, src)), path) == Some(x)
    decreases path
  {
    var r := Merge(obj, src);
    var k, rest := path[0], path[1..];
    assert k in obj && Lookup(obj[k], rest) == Some(x);
    if k in src {
      assert rest != [];
      assert obj[k].Obj?;
      MergeKeepsDefaults(obj[k].fields, src[k].fields, rest, x);
      assert r[k] == Obj(Merge(obj[k].fields, src[k].fields));
    } else {
      assert r[k] == obj[k];
    }
  }

  /** Nothing is invented: every non-object value of the merged options comes
      from the caller's options, or else from the defaults. */
  lemma {:induction false} MergeOnlyCombines(obj: Object, src: Object, path: seq<string>, x: Value)
    requires Mergeable(obj, src)
    requires Lookup(Obj(Merge(obj, src)), path) == Some(x) && !x.Obj?
    ensures Lookup(Obj(src), path) == Some(x) || Lookup(Obj(obj), path) == Some(x)
    decreases path
  {
    var r := Merge(obj, src);
    var k, rest := path[0], path[1..];
    assert k in r && Lookup(r[k], rest) == Some(x);
    if k in src && k in obj && IsObject(obj[k]) {
      assert r[k] == Obj(Merge(obj[k].fields, src[k].fields));
      assert rest != [];
      MergeOnlyCombines(obj[k].fields, src[k].fields, rest, x);
    } else if k in src {
      assert r[k] == src[k];
    } else {
      assert r[k] == obj[k];
    }
  }

  /** The defaults `initialize` merges the caller's options onto. */
  function Defaults(): Object {
    map["mapOptions" := Obj(map[
      "zoom" := Num("10"),
      "disableDefaultUI" := Bool(false),
      "draggable" := Bool(false),
      "scrollwheel" := Bool(false),
      "center" := Obj(map["lat" := Num("55.56265"), "lng" := Num("9.760596")])])]
  }

  /** Overriding only the zoom keeps every other map option at its default. */
  lemma DefaultsWithZoomOverride()
    ensures Mergeable(Defaults(), map["mapOptions" := Obj(map["zoom" := Num("15")])])
    ensures Merge(Defaults(), map["mapOptions" := Obj(map["zoom" := Num("15")])]) ==
      map["mapOptions" := Obj(map[
        "zoom" := Num("15"),
        "disableDefaultUI" := Bool(false),
        "draggable" := Bool(false),
        "scrollwheel" := Bool(false),
        "center" := Obj(map["lat" := Num("55.56265"), "lng" := Num("9.760596")])])]
  {
    var d := Defaults();
    var src := map["mapOptions" := Obj(map["zoom" := Num("15")])];
    var inner := Merge(d["mapOptions"].fields, src["mapOptions"].fields);
    assert inner == map[
        "zoom" := Num("15"),
        "disableDefaultUI" := Bool(false),
        "draggable" := Bool(false),
        "scrollwheel" := Bool(false),
        "center" := Obj(map["lat" := Num("55.56265"), "lng" := Num("9.760596")])];
    assert Merge(d, src) == map["mapOptions" := Obj(inner)];
  }
}
