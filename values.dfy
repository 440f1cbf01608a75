/** The dynamic values that the YAML and JSON decoders hand back as Go `interface{}`. */
module Values {

  /** A Go `float64`, carried as its 64-bit pattern and never computed with. */
  datatype Float64 = Float64(bits: bv64)

  /**
   * One decoded value. `StrMap` is Go's `map[string]interface{}` (what
   * `encoding/json` produces for an object, and what the tree builder creates
   * for a directory); `Other` stands for every dynamic type the decoders can
   * produce besides these six, such as the `int` and the
   * `map[interface{}]interface{}` of `gopkg.in/yaml.v2`, named by its Go type.
   */
  datatype Value =
    | Null
    | Bool(b: bool)
    | Str(s: string)
    | Float(n: Float64)
    | List(elems: seq<Value>)
    | StrMap(entries: map<string, Value>)
    | Other(goType: string)
}
