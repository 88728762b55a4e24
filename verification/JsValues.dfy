/** The slice of JavaScript's value semantics that the three components rely
    on: truthiness, the `||` operator, optional property access and object
    spread (`{...a, ...b}`). Numbers are integers; NaN and -0 are not values
    of this model. */
module JsValues {
  import opened Wrappers

  datatype Value =
    | Undefined
    | Null
    | Bool(b: bool)
    | Num(n: int)
    | Str(s: string)
    | Arr(items: seq<Value>)
    | Obj(fields: map<string, Value>)

  /** A plain object, seen as its own enumerable properties. */
  type Object = map<string, Value>

  /** JavaScript's ToBoolean. */
  predicate Truthy(v: Value) {
    match v
    case Undefined => false
    case Null => false
    case Bool(b) => b
    case Num(n) => n != 0
    case Str(s) => s != ""
    case Arr(_) => true
    case Obj(_) => true
  }

  /** `a || b`: the left operand when it is truthy, otherwise the right one. */
  function Or(a: Value, b: Value): Value {
    if Truthy(a) then a else b
  }

  /** `o.key` on a plain object: a missing property reads as `undefined`. */
  function Get(o: Object, key: string): Value {
    if key in o then o[key] else Undefined
  }

  /** `v?.key`: `undefined` on `null`/`undefined`; only object values carry
      own properties in this model. */
  function Prop(v: Value, key: string): Value {
    if v.Obj? then Get(v.fields, key) else Undefined
  }

  /** The JavaScript array holding the given strings, in order. */
  function StrArray(ss: seq<string>): (v: Value)
    ensures v.Arr? && |v.items| == |ss|
    ensures forall i :: 0 <= i < |ss| ==> v.items[i] == Str(ss[i])
  {
    Arr(seq(|ss|, i requires 0 <= i < |ss| => Str(ss[i])))
  }

  /** The object literal `{...layers[0], ...layers[1], ...}`: every layer is
      copied in order, so a later layer overrides an earlier one. */
  function Spread(layers: seq<Object>): (r: Object)
    ensures |layers| > 0 ==> forall k :: k in layers[|layers| - 1] ==> k in r && r[k] == layers[|layers| - 1][k]
    decreases |layers|
  {
    if |layers| == 0 then map[] else Spread(layers[..|layers| - 1]) + layers[|layers| - 1]
  }

  /** Reference reading of a spread: `key` is written by layer `i` and by no
      later layer. */
  ghost predicate LastWriter(layers: seq<Object>, key: string, i: int) {
    && 0 <= i < |layers|
    && key in layers[i]
    && forall j :: i < j < |layers| ==> key !in layers[j]
  }

  /** A spread holds exactly the keys of its layers. */
  lemma {:induction false} SpreadKeys(layers: seq<Object>, key: string)
    ensures key in Spread(layers) <==> exists i :: 0 <= i < |layers| && key in layers[i]
    decreases |layers|
  {
    if |layers| > 0 {
      var n := |layers| - 1;
      SpreadKeys(layers[..n], key);
      if exists i :: 0 <= i < |layers| && key in layers[i] {
        var i :| 0 <= i < |layers| && key in layers[i];
        if i < n {
          assert key in layers[..n][i];
        }
      }
      if exists i :: 0 <= i < n && key in layers[..n][i] {
        var i :| 0 <= i < n && key in layers[..n][i];
        assert key in layers[i];
      }
    }
  }

  /** Each key of a spread takes the value of the last layer that writes it. */
  lemma {:induction false} SpreadLastWriterWins(layers: seq<Object>, key: string, i: int)
    requires LastWriter(layers, key, i)
    ensures key in Spread(layers) && Spread(layers)[key] == layers[i][key]
    decreases |layers|
  {
    var n := |layers| - 1;
    if i < n {
      assert key !in layers[n];
      assert LastWriter(layers[..n], key, i);
      SpreadLastWriterWins(layers[..n], key, i);
      assert layers[..n][i] == layers[i];
    }
  }

  /** Two layers: `{...a, ...b}`. */
  lemma SpreadPair(a: Object, b: Object)
    ensures Spread([a, b]) == a + b
  {
    assert [a, b][..1] == [a];
    assert [a][..0] == [];
    assert Spread([a]) == map[] + a;
    assert map[] + a == a;
  }

  /** Four layers: `{...a, ...b, ...c, ...d}`. */
  lemma SpreadFour(a: Object, b: Object, c: Object, d: Object)
    ensures Spread([a, b, c, d]) == a + b + c + d
  {
    assert [a, b, c, d][..3] == [a, b, c];
    assert [a, b, c][..2] == [a, b];
    SpreadPair(a, b);
  }
}
