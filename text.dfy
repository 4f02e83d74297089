/** Python's `",".join(xs)` and the split that undoes it. */
module Text {

  /** `",".join(xs)` */
  function Join(xs: seq<string>): (s: string)
    ensures xs == [] ==> s == ""
    ensures |xs| == 1 ==> s == xs[0]
  {
    if xs == [] then ""
    else if |xs| == 1 then xs[0]
    else xs[0] + "," + Join(xs[1..])
  }

  /** `s.split(",")`: the pieces between commas, always at least one. */
  function Split(s: string): (r: seq<string>)
    ensures |r| > 0
  {
    if s == [] then [""]
    else
      var rest := Split(s[1..]);
      if s[0] == ',' then [""] + rest
      else [[s[0]] + rest[0]] + rest[1..]
  }

  /** No element of the list contains a comma. */
  predicate CommaFree(xs: seq<string>) {
    forall i | 0 <= i < |xs| :: ',' !in xs[i]
  }

  /** A comma-free piece followed by a comma splits off as the first piece. */
  lemma {:induction false} SplitPiece(x: string, t: string)
    requires ',' !in x
    ensures Split(x + "," + t) == [x] + Split(t)
    ensures Split(x) == [x]
    decreases |x|
  {
    if x == [] {
      assert x + "," + t == [','] + t;
      assert ([','] + t)[1..] == t;
    } else {
      SplitPiece(x[1..], t);
      assert (x + "," + t)[1..] == x[1..] + "," + t;
      assert [x[0]] + x[1..] == x;
    }
  }

  /** Joining a non-empty list of comma-free strings loses nothing: splitting gives the list back. */
  lemma {:induction false} SplitJoin(xs: seq<string>)
    requires xs != [] && CommaFree(xs)
    ensures Split(Join(xs)) == xs
    decreases |xs|
  {
    if |xs| == 1 {
      SplitPiece(xs[0], "");
    } else {
      SplitPiece(xs[0], Join(xs[1..]));
      SplitJoin(xs[1..]);
    }
  }
}
