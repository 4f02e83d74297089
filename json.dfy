/**
 * JSON values as the clients see them after `response.json()`, Python truthiness
 * over them, and pydantic models seen as field maps together with their
 * `model_dump(exclude_none=True)` serialisation.
 */
module Json {
  import opened Wrappers

  datatype Json =
    | JNull
    | JBool(b: bool)
    | JInt(i: int)
    | JStr(s: string)
    | JArr(items: seq<Json>)
    | JObj(fields: map<string, Json>)

  /**
   * A pydantic model instance (or the keyword arguments given to its
   * constructor): field name to value, with `JNull` standing for `None`.
   */
  type Model = map<string, Json>

  /** Python truthiness: None, False, 0, "", [] and {} are falsy, everything else is truthy. */
  predicate Truthy(j: Json) {
    match j
    case JNull => false
    case JBool(b) => b
    case JInt(i) => i != 0
    case JStr(s) => s != ""
    case JArr(xs) => xs != []
    case JObj(m) => m != map[]
  }

  /** Python's `any([...])` over a list of values. */
  predicate AnyTruthy(js: seq<Json>) {
    exists i | 0 <= i < |js| :: Truthy(js[i])
  }

  /** An `Optional[str]` as a JSON value. */
  function Str(o: Option<string>): Json {
    if o.None? then JNull else JStr(o.value)
  }

  /** An `Optional[bool]` as a JSON value. */
  function Bool(o: Option<bool>): Json {
    if o.None? then JNull else JBool(o.value)
  }

  /** An `Optional[int]` as a JSON value. */
  function Int(o: Option<int>): Json {
    if o.None? then JNull else JInt(o.value)
  }

  /** A `List[str]` as a list of JSON strings. */
  function Strs(xs: seq<string>): (r: seq<Json>)
    ensures |r| == |xs|
    ensures forall i | 0 <= i < |xs| :: r[i] == JStr(xs[i])
  {
    seq(|xs|, i requires 0 <= i < |xs| => JStr(xs[i]))
  }

  /** An `Optional[List[str]]` as a JSON value. */
  function StrList(o: Option<seq<string>>): Json {
    if o.None? then JNull else JArr(Strs(o.value))
  }

  /** Python's `d.get(k, default)`. */
  function Get(d: map<string, Json>, k: string, default: Json): Json {
    if k in d then d[k] else default
  }

  /** `model_dump(exclude_none=True)`: every field that is None is dropped, the others are kept as they are. */
  function Dump(m: Model): (d: map<string, Json>)
    ensures forall k :: k in d <==> k in m && m[k] != JNull
    ensures forall k | k in d :: d[k] == m[k]
    ensures JNull !in d.Values
  {
    map k | k in m && m[k] != JNull :: m[k]
  }

  /** The truthiness of an optional string is exactly "present and non-empty". */
  lemma TruthyStr(o: Option<string>)
    ensures Truthy(Str(o)) <==> o.Some? && o.value != ""
  {
  }

  /** The truthiness of an optional flag is exactly "present and True": an explicit False is falsy. */
  lemma TruthyBool(o: Option<bool>)
    ensures Truthy(Bool(o)) <==> o == Some(true)
  {
  }

  /**
   * A model whose fields outside `keys` are all None and whose fields in `keys`
   * are all set serialises to exactly the fields in `keys`.
   */
  lemma {:induction false} DumpKeepsExactlySetFields(m: Model, keys: set<string>)
    requires keys <= m.Keys
    requires forall k | k in keys :: m[k] != JNull
    requires forall k | k in m && k !in keys :: m[k] == JNull
    ensures Dump(m).Keys == keys
    ensures Dump(m) == map k | k in keys :: m[k]
  {
    var d := Dump(m);
    assert d.Keys == keys by {
      forall k ensures k in d.Keys <==> k in keys {
      }
    }
  }

  /** Serialising two models with disjoint fields is serialising each and joining the results. */
  lemma DumpUnion(a: Model, b: Model)
    requires a.Keys !! b.Keys
    ensures Dump(a + b) == Dump(a) + Dump(b)
  {
    var l, r := Dump(a + b), Dump(a) + Dump(b);
    assert forall k :: k in l <==> k in r;
  }

  /** A model whose fields are all None serialises to the empty object. */
  lemma DumpAllNone(m: Model)
    requires forall k | k in m :: m[k] == JNull
    ensures Dump(m) == map[]
  {
    assert Dump(m).Keys == {};
  }
}
