/**
 * Custom fields given as a dict of key to value, sent as a list of
 * `{"key": k, "value": v}` objects in the dict's order.
 */
module CustomFields {
  import opened Wrappers
  import opened Json

  /** A dict's items, in insertion order. */
  type Pairs = seq<(string, Json)>

  /** `{"key": k, "value": v}` */
  function Entry(k: string, v: Json): Json {
    JObj(map["key" := JStr(k), "value" := v])
  }

  /** `[{"key": k, "value": v} for k, v in d.items()]` */
  function ToList(d: Pairs): (r: seq<Json>)
    ensures |r| == |d|
    ensures forall i | 0 <= i < |d| :: r[i] == Entry(d[i].0, d[i].1)
  {
    seq(|d|, i requires 0 <= i < |d| => Entry(d[i].0, d[i].1))
  }

  /** Reads a list of `{key, value}` objects back into the dict items; anything else is rejected. */
  function FromList(xs: seq<Json>): Option<Pairs> {
    if xs == [] then Some([])
    else
      var rest := FromList(xs[1..]);
      var x := xs[0];
      if x.JObj? && "key" in x.fields && x.fields["key"].JStr? && "value" in x.fields && rest.Some? then
        Some([(x.fields["key"].s, x.fields["value"])] + rest.value)
      else None
  }

  /** Nothing is lost in the conversion: the list reads back as the same items in the same order. */
  lemma {:induction false} FromToList(d: Pairs)
    ensures FromList(ToList(d)) == Some(d)
    decreases |d|
  {
    if d != [] {
      var xs := ToList(d);
      assert xs[1..] == ToList(d[1..]);
      FromToList(d[1..]);
      assert xs[0] == Entry(d[0].0, d[0].1);
      assert [(d[0].0, d[0].1)] + d[1..] == d;
    }
  }
}
