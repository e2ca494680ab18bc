/** Resource identity keys (pkg/util). */
module Util {
  import opened Types

  /** The cache and work-queue key of a resource: `namespace/name`, or the
      bare name when the namespace is empty. */
  function GetKey(namespace: string, name: string): string
  {
    (if namespace != "" then namespace + "/" else "") + name
  }

  /** A key is the bare name when the namespace is empty, and otherwise the
      namespace, one slash and the name. */
  lemma GetKeyShape(namespace: string, name: string)
    ensures namespace == "" ==> GetKey(namespace, name) == name
    ensures namespace != "" ==>
      var key := GetKey(namespace, name);
      |key| == |namespace| + 1 + |name| && key[..|namespace|] == namespace && key[|namespace|] == '/'
    ensures var key := GetKey(namespace, name); |name| <= |key| && key[|key| - |name|..] == name
  {
  }

  /** The key of an object (see KeyRoundTrip for how it splits back). */
  function GetKeyForObject(o: Obj): string
  {
    GetKey(o.namespace, o.name)
  }

  /** Position of the first occurrence of `c` in `s`. */
  function IndexOf(s: string, c: char): (i: nat)
    requires c in s
    ensures i < |s| && s[i] == c && c !in s[..i]
  {
    if s[0] == c then 0
    else
      assert s == [s[0]] + s[1..];
      var j := IndexOf(s[1..], c);
      assert s[..j + 1] == [s[0]] + s[1..][..j];
      j + 1
  }

  /** Splits a key at its first slash into namespace and name; a key with no
      slash names a resource without a namespace. */
  function SplitKey(key: string): (parts: (string, string))
    ensures '/' !in key ==> parts == ("", key)
    ensures '/' in key ==> parts.0 + "/" + parts.1 == key && '/' !in parts.0
  {
    if '/' in key then
      var i := IndexOf(key, '/');
      assert key == key[..i] + [key[i]] + key[i + 1..];
      (key[..i], key[i + 1..])
    else ("", key)
  }

  /** Splitting a key recovers the namespace and name it was built from. */
  lemma KeyRoundTrip(namespace: string, name: string)
    requires '/' !in namespace && '/' !in name
    ensures SplitKey(GetKey(namespace, name)) == (namespace, name)
  {
    var key := GetKey(namespace, name);
    GetKeyShape(namespace, name);
    if namespace != "" {
      assert key == namespace + "/" + name;
      var i := IndexOf(key, '/');
      assert forall k :: 0 <= k < |namespace| ==> key[k] == namespace[k];
      assert forall k :: 0 <= k < i ==> key[..i][k] == key[k];
      assert i == |namespace|;
      assert key[..i] == namespace;
      assert key[i + 1..] == name;
    }
  }

  /** Two resources whose namespaces and names contain no slash share a key
      only if they share both namespace and name. */
  lemma KeyInjective(ns1: string, name1: string, ns2: string, name2: string)
    requires '/' !in ns1 && '/' !in name1 && '/' !in ns2 && '/' !in name2
    requires GetKey(ns1, name1) == GetKey(ns2, name2)
    ensures ns1 == ns2 && name1 == name2
  {
    KeyRoundTrip(ns1, name1);
    KeyRoundTrip(ns2, name2);
  }

  /** Without that condition keys collide: a non-namespaced `a/b` and `b` in
      namespace `a` share one key. */
  lemma KeyCollision()
    ensures GetKey("", "a/b") == GetKey("a", "b")
  {
  }
}
