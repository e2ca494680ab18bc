/** The two library helpers the request builders rely on, in the simplified
    form this model assumes: `path.Join` over segments that contain no `/`,
    `.` or `..` of their own, and `url.Values` with an encoder whose only
    relied-on property is that it yields "" exactly when no value is present. */
module Urls {

  /** Joins two path fragments with one slash, dropping an empty one. */
  function Glue(a: string, b: string): (r: string)
    ensures r == "" <==> a == "" && b == ""
  {
    if a == "" then b else if b == "" then a else a + "/" + b
  }

  /** `path.Join`: the non-empty segments, in order, separated by "/". */
  function Join(segments: seq<string>): string
  {
    if segments == [] then "" else Glue(segments[0], Join(segments[1..]))
  }

  /** A joined path is empty exactly when every segment is. */
  lemma {:induction false} JoinEmpty(segments: seq<string>)
    ensures Join(segments) == "" <==> forall i :: 0 <= i < |segments| ==> segments[i] == ""
  {
    if segments != [] {
      JoinEmpty(segments[1..]);
      assert forall i :: 1 <= i < |segments| ==> segments[i] == segments[1..][i - 1];
    }
  }

  lemma GlueAssociative(a: string, b: string, c: string)
    ensures Glue(Glue(a, b), c) == Glue(a, Glue(b, c))
  {
  }

  /** Joining a concatenation joins the two halves. */
  lemma {:induction false} JoinAppend(xs: seq<string>, ys: seq<string>)
    ensures Join(xs + ys) == Glue(Join(xs), Join(ys))
  {
    if xs != [] {
      assert (xs + ys)[1..] == xs[1..] + ys;
      JoinAppend(xs[1..], ys);
      GlueAssociative(xs[0], Join(xs[1..]), Join(ys));
    } else {
      assert xs + ys == ys;
    }
  }

  /** A joined path used as one segment of a further join splices in: the
      nesting of `path.Join` calls does not matter. */
  lemma JoinNested(xs: seq<string>, ys: seq<string>, zs: seq<string>)
    ensures Join([Join(xs), Join(ys)] + zs) == Join(xs + ys + zs)
  {
    assert ([Join(xs), Join(ys)] + zs)[1..] == [Join(ys)] + zs;
    assert ([Join(ys)] + zs)[1..] == zs;
    JoinAppend(ys, zs);
    JoinAppend(xs, ys + zs);
    assert xs + ys + zs == xs + (ys + zs);
  }

  /** An empty segment contributes nothing to a joined path. */
  lemma EmptySegmentVanishes(xs: seq<string>, ys: seq<string>)
    ensures Join(xs + [""] + ys) == Join(xs + ys)
  {
    JoinAppend(xs, [""] + ys);
    JoinAppend(xs, ys);
    assert ([""] + ys)[1..] == ys;
    assert xs + [""] + ys == xs + ([""] + ys);
  }

  /** `url.Values`: every (key, value) pair in the order it was added. */
  datatype Values = Values(pairs: seq<(string, string)>)

  const NoValues: Values := Values([])

  /** All values stored under `key`, in the order they were added. */
  function Lookup(q: Values, key: string): seq<string>
  {
    LookupPairs(q.pairs, key)
  }

  function LookupPairs(pairs: seq<(string, string)>, key: string): (vs: seq<string>)
    ensures |vs| <= |pairs|
  {
    if pairs == [] then []
    else
      var last := pairs[|pairs| - 1];
      LookupPairs(pairs[..|pairs| - 1], key) + (if last.0 == key then [last.1] else [])
  }

  /** `Values.Add`: appends `value` to the values of `key`. */
  function Add(q: Values, key: string, value: string): (r: Values)
    ensures Lookup(r, key) == Lookup(q, key) + [value]
    ensures forall k :: k != key ==> Lookup(r, k) == Lookup(q, k)
  {
    var r := Values(q.pairs + [(key, value)]);
    assert r.pairs[..|r.pairs| - 1] == q.pairs;
    r
  }

  /** `Values.Set`: replaces every value of `key` by `value`. */
  function Set(q: Values, key: string, value: string): (r: Values)
    ensures Lookup(r, key) == [value]
    ensures forall k :: k != key ==> Lookup(r, k) == Lookup(q, k)
  {
    var kept := Without(q.pairs, key);
    var r := Values(kept + [(key, value)]);
    assert r.pairs[..|r.pairs| - 1] == kept;
    r
  }

  /** The pairs whose key is not `key`. */
  function Without(pairs: seq<(string, string)>, key: string): (r: seq<(string, string)>)
    ensures LookupPairs(r, key) == []
    ensures forall k :: k != key ==> LookupPairs(r, k) == LookupPairs(pairs, k)
  {
    if pairs == [] then []
    else
      var init := pairs[..|pairs| - 1];
      var last := pairs[|pairs| - 1];
      var w := Without(init, key);
      if last.0 == key then w
      else
        var r := w + [last];
        assert r[..|r| - 1] == w;
        assert pairs[..|pairs| - 1] == init;
        r
  }

  /** `Values.Encode`, without the sorting by key and the percent-escaping of
      the library: each pair as `key=value`, separated by "&". */
  function Encode(q: Values): (s: string)
    ensures s == "" <==> q.pairs == []
  {
    EncodePairs(q.pairs)
  }

  function EncodePairs(pairs: seq<(string, string)>): (s: string)
    ensures s == "" <==> pairs == []
  {
    if pairs == [] then ""
    else
      var first := pairs[0].0 + "=" + pairs[0].1;
      assert first[|pairs[0].0|] == '=';
      if |pairs| == 1 then first else first + "&" + EncodePairs(pairs[1..])
  }
}
