/** Client-side matching of a resource against a namespace and a list of
    label selectors (pkg/apis/local_matcher.go). */
module LocalMatcher {
  import opened Types

  /** Go's `<` on strings: lexicographic order, a proper prefix first. */
  predicate StringLess(a: string, b: string)
  {
    if a == [] then b != []
    else if b == [] then false
    else if a[0] != b[0] then a[0] < b[0]
    else StringLess(a[1..], b[1..])
  }

  /** Exactly one of `a < b`, `a == b`, `b < a` holds. */
  lemma {:induction false} StringLessTrichotomy(a: string, b: string)
    ensures StringLess(a, b) || a == b || StringLess(b, a)
    ensures !(StringLess(a, b) && StringLess(b, a))
    ensures StringLess(a, b) ==> a != b
  {
    if a != [] && b != [] && a[0] == b[0] {
      StringLessTrichotomy(a[1..], b[1..]);
      if a[1..] == b[1..] {
        assert a == [a[0]] + a[1..] && b == [b[0]] + b[1..];
      }
    }
  }

  /** What one selector demands of a label map, stated per operator: the
      label must be present, and an operator other than the four comparing
      ones (Exists, or anything unknown) demands nothing more. */
  predicate Satisfies(selector: LabelSelector, labels: map<string, string>)
  {
    && selector.key in labels
    && var value := labels[selector.key];
    && (selector.operator == Equals ==> value == selector.value)
    && (selector.operator == NotEquals ==> value != selector.value)
    && (selector.operator == LessThan ==> StringLess(value, selector.value))
    && (selector.operator == GreaterThan ==> StringLess(selector.value, value))
  }

  /** The selector scan of the source: stop at the first selector whose label
      is missing or whose comparison fails. */
  function LabelMatch(selectors: seq<LabelSelector>, labels: map<string, string>): (ok: bool)
    ensures selectors == [] ==> ok
  {
    if selectors == [] then true
    else
      var selector := selectors[0];
      if selector.key !in labels then false
      else
        var value := labels[selector.key];
        if selector.operator == Equals && value != selector.value then false
        else if selector.operator == NotEquals && value == selector.value then false
        // `value >= selector.value` and `value <= selector.value` of the source
        else if selector.operator == LessThan && !StringLess(value, selector.value) then false
        else if selector.operator == GreaterThan && !StringLess(selector.value, value) then false
        else LabelMatch(selectors[1..], labels)
  }

  /** A resource matches when the namespace filter (skipped when empty)
      accepts it and every selector holds on its labels. */
  function Matches(namespace: string, selectors: seq<LabelSelector>, item: Obj): (ok: bool)
    ensures namespace != "" && namespace != item.namespace ==> !ok
    ensures namespace == "" || namespace == item.namespace ==> (ok <==> LabelMatch(selectors, item.labels))
  {
    if namespace != "" && namespace != item.namespace then false
    else LabelMatch(selectors, item.labels)
  }

  /** One selector decided by the scan agrees with its stated meaning. */
  lemma SelectorAgrees(selector: LabelSelector, labels: map<string, string>)
    ensures LabelMatch([selector], labels) <==> Satisfies(selector, labels)
  {
  }

  /** The scan accepts exactly when every selector holds on its own. */
  lemma {:induction false} LabelMatchAll(selectors: seq<LabelSelector>, labels: map<string, string>)
    ensures LabelMatch(selectors, labels) <==>
      forall i :: 0 <= i < |selectors| ==> Satisfies(selectors[i], labels)
  {
    if selectors != [] {
      SelectorAgrees(selectors[0], labels);
      LabelMatchAll(selectors[1..], labels);
      assert forall i :: 1 <= i < |selectors| ==> selectors[i] == selectors[1..][i - 1];
      assert [selectors[0]][1..] == [];
      assert LabelMatch(selectors, labels) == (LabelMatch([selectors[0]], labels) && LabelMatch(selectors[1..], labels));
    }
  }

  /** The order and repetition of selectors do not matter: two lists holding
      the same selectors accept the same label maps. */
  lemma SelectorOrderIrrelevant(s1: seq<LabelSelector>, s2: seq<LabelSelector>, labels: map<string, string>)
    requires forall s :: s in s1 <==> s in s2
    ensures LabelMatch(s1, labels) == LabelMatch(s2, labels)
  {
    LabelMatchAll(s1, labels);
    LabelMatchAll(s2, labels);
    if LabelMatch(s1, labels) {
      forall i | 0 <= i < |s2| ensures Satisfies(s2[i], labels) {
        assert s2[i] in s1;
      }
    }
    if LabelMatch(s2, labels) {
      forall i | 0 <= i < |s1| ensures Satisfies(s1[i], labels) {
        assert s1[i] in s2;
      }
    }
  }

  /** A selector on an absent label rejects whatever its operator, Exists
      included. */
  lemma AbsentLabelRejects(selectors: seq<LabelSelector>, labels: map<string, string>, i: nat)
    requires i < |selectors| && selectors[i].key !in labels
    ensures !LabelMatch(selectors, labels)
  {
    LabelMatchAll(selectors, labels);
  }

  /** The selector `app=foo` accepts `{app: foo, tier: web}` and rejects
      `{app: bar}` and a map without `app`. */
  lemma EqualsExample()
    ensures LabelMatch([LabelSelector("app", "foo", Equals)], map["app" := "foo", "tier" := "web"])
    ensures !LabelMatch([LabelSelector("app", "foo", Equals)], map["app" := "bar"])
    ensures !LabelMatch([LabelSelector("app", "foo", Equals)], map["tier" := "web"])
  {
  }
}
