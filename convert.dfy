/**
 * The conversion of the built map into the framework's dynamic values
 * (`convertToAttrValueSingle` and `convertToAttrValue`,
 * provider/data_source_dirmap.go:107-165).
 */
module Convert {
  import opened Wrappers
  import opened Values
  import Tree

  /** The framework values the converter produces, every element of dynamic type. */
  datatype AttrValue =
    | MapVal(elems: map<string, AttrValue>)
    | ListVal(items: seq<AttrValue>)
    | StringVal(s: string)
    | NumberVal(n: Float64)
    | BoolVal(b: bool)
    | DynamicNull

  /** The summaries of the two error diagnostics the converter can add. */
  datatype Diag = UnsupportedValueType | InvalidTopLevelType

  /** Every node is one of the six kinds the converter handles. */
  predicate Supported(v: Value) {
    match v
    case StrMap(m) => forall k | k in m :: Supported(m[k])
    case List(s) => forall i | 0 <= i < |s| :: Supported(s[i])
    case Other(_) => false
    case _ => true
  }

  /**
   * `convertToAttrValueSingle`: succeeds exactly when every node is supported;
   * any other dynamic type anywhere inside gives "Unsupported value type".
   */
  function ConvertSingle(v: Value): (r: Result<AttrValue, Diag>)
    ensures r.Success? <==> Supported(v)
    ensures r.Failure? ==> r.error == UnsupportedValueType
    decreases v
  {
    match v
    case StrMap(m) =>
      if forall k | k in m :: ConvertSingle(m[k]).Success? then
        Success(MapVal(map k | k in m :: ConvertSingle(m[k]).value))
      else
        Failure(UnsupportedValueType)
    case List(s) =>
      if forall i | 0 <= i < |s| :: ConvertSingle(s[i]).Success? then
        Success(ListVal(seq(|s|, i requires 0 <= i < |s| => ConvertSingle(s[i]).value)))
      else
        Failure(UnsupportedValueType)
    case Str(x) => Success(StringVal(x))
    case Float(n) => Success(NumberVal(n))
    case Bool(b) => Success(BoolVal(b))
    case Null => Success(DynamicNull)
    case Other(_) => Failure(UnsupportedValueType)
  }

  /**
   * `convertToAttrValue`: only a string-keyed map is accepted at the top
   * ("Invalid top-level type" otherwise), and it converts as a whole.
   */
  function Convert(v: Value): (r: Result<AttrValue, Diag>)
    ensures !v.StrMap? ==> r == Failure(InvalidTopLevelType)
    ensures r.Success? <==> v.StrMap? && Supported(v)
    ensures r.Success? ==> r.value.MapVal? && r.value.elems.Keys == v.entries.Keys
    ensures v.StrMap? && r.Failure? ==> r.error == UnsupportedValueType
  {
    match v
    case StrMap(_) => ConvertSingle(v)
    case _ => Failure(InvalidTopLevelType)
  }

  /** The dynamic value a framework value came from: the inverse of the conversion. */
  function Unconvert(a: AttrValue): (v: Value)
    ensures Supported(v)
  {
    match a
    case MapVal(m) => StrMap(map k | k in m :: Unconvert(m[k]))
    case ListVal(s) => List(seq(|s|, i requires 0 <= i < |s| => Unconvert(s[i])))
    case StringVal(x) => Str(x)
    case NumberVal(n) => Float(n)
    case BoolVal(b) => Bool(b)
    case DynamicNull => Null
  }

  /**
   * A map converts to a map with the same keys, each value converted on its
   * own (data_source_dirmap.go:112-122).
   */
  lemma ConvertMap(m: map<string, Value>)
    requires ConvertSingle(StrMap(m)).Success?
    ensures ConvertSingle(StrMap(m)).value.MapVal?
    ensures ConvertSingle(StrMap(m)).value.elems.Keys == m.Keys
    ensures forall k | k in m :: ConvertSingle(m[k]) == Success(ConvertSingle(StrMap(m)).value.elems[k])
  {
  }

  /**
   * A list converts to a list of the same length, element by element in order
   * (data_source_dirmap.go:123-133).
   */
  lemma ConvertList(s: seq<Value>)
    requires ConvertSingle(List(s)).Success?
    ensures ConvertSingle(List(s)).value.ListVal?
    ensures |ConvertSingle(List(s)).value.items| == |s|
    ensures forall i | 0 <= i < |s| :: ConvertSingle(s[i]) == Success(ConvertSingle(List(s)).value.items[i])
  {
  }

  /** Converting loses nothing: the converted value determines the original. */
  lemma {:induction false} UnconvertConvert(v: Value)
    requires ConvertSingle(v).Success?
    ensures Unconvert(ConvertSingle(v).value) == v
    decreases v
  {
    match v
    case StrMap(m) =>
      var a := ConvertSingle(v).value.elems;
      forall k | k in m ensures Unconvert(a[k]) == m[k] {
        UnconvertConvert(m[k]);
      }
      assert (map k | k in a :: Unconvert(a[k])) == m;
    case List(s) =>
      var a := ConvertSingle(v).value.items;
      forall i | 0 <= i < |s| ensures Unconvert(a[i]) == s[i] {
        UnconvertConvert(s[i]);
      }
      assert seq(|a|, i requires 0 <= i < |a| => Unconvert(a[i])) == s;
    case _ =>
  }

  /**
   * Every framework value of the six kinds is reached: converting its dynamic
   * counterpart gives it back, so scalars map one to one (data_source_dirmap.go:134-141).
   */
  lemma {:induction false} ConvertUnconvert(a: AttrValue)
    ensures ConvertSingle(Unconvert(a)) == Success(a)
    decreases a
  {
    match a
    case MapVal(m) =>
      var v := Unconvert(a).entries;
      assert v.Keys == m.Keys;
      forall k | k in m ensures ConvertSingle(v[k]) == Success(m[k]) {
        ConvertUnconvert(m[k]);
      }
      var r := ConvertSingle(StrMap(v)).value;
      assert r.elems.Keys == m.Keys;
      assert forall k | k in m :: r.elems[k] == m[k];
      assert r.elems == m;
    case ListVal(s) =>
      var v := Unconvert(a).elems;
      forall i | 0 <= i < |s| ensures ConvertSingle(v[i]) == Success(s[i]) {
        ConvertUnconvert(s[i]);
      }
      assert seq(|v|, i requires 0 <= i < |v| => ConvertSingle(v[i]).value) == s;
    case _ =>
  }

  /**
   * One unsupported value anywhere below the top, at any key path of the map,
   * makes the whole conversion fail (data_source_dirmap.go:115-119, 142-147).
   */
  lemma {:induction false} UnsupportedBelowFails(v: Value, p: seq<string>)
    requires Tree.LookupIn(v, p).Some? && !Supported(Tree.LookupIn(v, p).value)
    ensures ConvertSingle(v) == Failure(UnsupportedValueType)
    decreases |p|
  {
    if p != [] {
      UnsupportedBelowFails(v.entries[p[0]], p[1..]);
    }
  }
}
