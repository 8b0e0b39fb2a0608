/** The style-merging primitive of the themed components: `StyleSheet.flatten`
    applied to an array of style records. `ThemedButton` calls it; `ThemedText`
    hands its style array to the renderer, which resolves it the same way. Each record is a flat map from a
    style property name to its value; flattening folds the array from left to
    right with object spread, so on a key conflict the later record wins. */
module StyleSheet {

  /** A style property value. Colours and keywords are opaque strings. */
  datatype StyleValue = Num(n: real) | Str(s: string)

  /** One style record, e.g. `{ paddingVertical: 12, borderRadius: 8 }`. */
  type Style = map<string, StyleValue>

  /** Some layer of `layers` defines `key`. */
  ghost predicate Defines(layers: seq<Style>, key: string)
  {
    exists i :: 0 <= i < |layers| && key in layers[i]
  }

  /** Layer `i` is the last layer of `layers` that defines `key`. */
  ghost predicate LastDefines(layers: seq<Style>, i: int, key: string)
  {
    && 0 <= i < |layers|
    && key in layers[i]
    && forall j :: i < j < |layers| ==> key !in layers[j]
  }

  /** The layer fold `layers.reduce((acc, cur) => ({...acc, ...cur}), {})`.
      An empty array gives the empty record and a single record flattens to
      itself; `FlattenKeys` and `FlattenValues` characterise the general case. */
  function Flatten(layers: seq<Style>): (r: Style)
    ensures layers == [] ==> r == map[]
    ensures |layers| == 1 ==> r == layers[0]
  {
    if layers == [] then map[] else Flatten(layers[..|layers| - 1]) + layers[|layers| - 1]
  }

  /** The flattened record holds exactly the keys some layer defines. */
  lemma {:induction false} FlattenKeys(layers: seq<Style>)
    ensures forall key :: key in Flatten(layers) <==> Defines(layers, key)
    decreases |layers|
  {
    if layers != [] {
      var n := |layers| - 1;
      var init := layers[..n];
      FlattenKeys(init);
      var r := Flatten(layers);
      assert r == Flatten(init) + layers[n];
      forall key
        ensures key in r <==> Defines(layers, key)
      {
        if key in layers[n] {
          assert 0 <= n < |layers| && key in layers[n];
        } else {
          if key in Flatten(init) {
            var i :| 0 <= i < |init| && key in init[i];
            assert 0 <= i < |layers| && key in layers[i];
          }
          if Defines(layers, key) {
            var i :| 0 <= i < |layers| && key in layers[i];
            assert i < n && init[i] == layers[i];
            assert Defines(init, key);
          }
        }
      }
    }
  }

  /** Each key of the flattened record is bound to the value from the last
      layer that defines it. */
  lemma {:induction false} FlattenValues(layers: seq<Style>)
    ensures forall i, key :: LastDefines(layers, i, key) ==> key in Flatten(layers) && Flatten(layers)[key] == layers[i][key]
    decreases |layers|
  {
    if layers != [] {
      var n := |layers| - 1;
      var init := layers[..n];
      FlattenValues(init);
      var r := Flatten(layers);
      assert r == Flatten(init) + layers[n];
      forall i, key | LastDefines(layers, i, key)
        ensures key in r && r[key] == layers[i][key]
      {
        if i < n {
          assert key !in layers[n];
          assert init[i] == layers[i];
          assert LastDefines(init, i, key);
        }
      }
    }
  }

  /** The three layers `[base, {key: colour}, override]` flatten to the
      override's keys with its values, the theme colour unless the override
      sets `key`, and the base everywhere else. */
  lemma ThemeLayerUnderOverride(base: Style, key: string, colour: string, caller: Style)
    ensures var r := Flatten([base, map[key := Str(colour)], caller]);
      && r.Keys == base.Keys + {key} + caller.Keys
      && (forall k :: k in caller ==> r[k] == caller[k])
      && (key !in caller ==> r[key] == Str(colour))
      && (forall k :: k in base && k != key && k !in caller ==> r[k] == base[k])
  {
    var theme := map[key := Str(colour)];
    var layers := [base, theme, caller];
    assert layers[..2] == [base, theme];
    assert [base, theme][..1] == [base];
    assert [base][..0] == [];
    assert Flatten([base]) == base;
    assert Flatten(layers) == base + theme + caller;
  }

  /** The two layers `[{key: colour}, override]` flatten to the override's
      keys with its values, plus the theme colour unless the override sets `key`. */
  lemma ThemeColourUnderOverride(key: string, colour: string, caller: Style)
    ensures var r := Flatten([map[key := Str(colour)], caller]);
      && r.Keys == {key} + caller.Keys
      && (forall k :: k in caller ==> r[k] == caller[k])
      && (key !in caller ==> r[key] == Str(colour))
  {
    var theme := map[key := Str(colour)];
    var layers := [theme, caller];
    assert layers[..1] == [theme];
    assert [theme][..0] == [];
    assert Flatten([theme]) == theme;
    assert Flatten(layers) == theme + caller;
  }

  /** Flattening a concatenation equals merging the two flattened halves. */
  lemma {:induction false} FlattenAppend(a: seq<Style>, b: seq<Style>)
    ensures Flatten(a + b) == Flatten(a) + Flatten(b)
    decreases |b|
  {
    if b == [] {
      assert a + b == a;
    } else {
      var b' := b[..|b| - 1];
      assert (a + b)[..|a + b| - 1] == a + b';
      FlattenAppend(a, b');
      var x := b[|b| - 1];
      assert (a + b)[|a + b| - 1] == x;
      UnionAssociative(Flatten(a), Flatten(b'), x);
    }
  }

  lemma UnionAssociative(m1: Style, m2: Style, m3: Style)
    ensures (m1 + m2) + m3 == m1 + (m2 + m3)
  {
  }

  /** An empty record (an `undefined` caller style spread into the fold)
      changes nothing, wherever it sits in the array. */
  lemma EmptyLayerIsNeutral(a: seq<Style>, b: seq<Style>)
    ensures Flatten(a + [map[]] + b) == Flatten(a + b)
  {
    var e: seq<Style> := [map[]];
    FlattenAppend(a + e, b);
    FlattenAppend(a, e);
    FlattenAppend(a, b);
    assert Flatten(e) == map[];
    assert Flatten(a + e) == Flatten(a);
  }
}
