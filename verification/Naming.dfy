// Unit names: podToUnitName and its readers in internal/provider/pod.go, and the selection of
// internal/unit/manager.go's States.

module Naming {
  import opened Strings
  import opened Kube

  const PREFIX := "systemk"
  const SERVICE_SUFFIX := ".service"

  function UnitPrefix(namespace: string, podName: string): string {
    PREFIX + "." + namespace + "." + podName
  }

  function PodToUnitName(key: NamespacedName, container: string): string {
    UnitPrefix(key.namespace, key.name) + "." + container + SERVICE_SUFFIX
  }

  // Namespace, Pod and Container of a unit name: the second, third and fourth dotted piece.
  function Element(unitName: string, i: nat): string
    requires i < 4
  {
    var el := Split(unitName, '.');
    if |el| < 4 then "" else el[i]
  }

  function NamespaceOf(unitName: string): string { Element(unitName, 1) }
  function PodOf(unitName: string): string { Element(unitName, 2) }
  function ContainerOf(unitName: string): string { Element(unitName, 3) }

  function NameOf(unitName: string): string {
    if |Split(unitName, '.')| < 4 then "" else NamespaceOf(unitName) + "." + PodOf(unitName)
  }

  predicate DotFree(s: string) {
    '.' !in s
  }

  lemma SplitLabel(word: string, rest: string)
    requires DotFree(word)
    ensures Split(word + "." + rest, '.') == [word] + Split(rest, '.')
  {
    assert word + "." + rest == word + ['.'] + rest;
    SplitAppend(word, rest, '.');
    SplitWhole(word, '.');
  }

  lemma ServiceLabels(container: string)
    requires DotFree(container)
    ensures Split(container + "." + "service", '.') == [container, "service"]
  {
    SplitWhole("service", '.');
    SplitLabel(container, "service");
    assert [container] + ["service"] == [container, "service"];
  }

  lemma ServiceText(name: string, container: string)
    ensures name + "." + container + SERVICE_SUFFIX == name + ['.'] + (container + "." + "service")
  {
    assert SERVICE_SUFFIX == "." + "service";
  }

  lemma TailPieces(name: string, container: string)
    requires DotFree(container)
    ensures Split(name + "." + container + SERVICE_SUFFIX, '.') == Split(name, '.') + [container, "service"]
  {
    ServiceText(name, container);
    SplitAppend(name, container + "." + "service", '.');
    ServiceLabels(container);
  }

  lemma TwoLabels(a: string, b: string, rest: string)
    requires DotFree(a) && DotFree(b)
    ensures Split(a + "." + (b + "." + rest), '.') == [a, b] + Split(rest, '.')
  {
    SplitLabel(b, rest);
    SplitLabel(a, b + "." + rest);
    assert [a] + ([b] + Split(rest, '.')) == [a, b] + Split(rest, '.');
  }

  lemma UnitNameParts(key: NamespacedName, container: string)
    ensures PodToUnitName(key, container)
         == PREFIX + "." + (key.namespace + "." + (key.name + "." + container + SERVICE_SUFFIX))
  {
  }

  // The dotted pieces of a unit name.
  lemma UnitNamePieces(key: NamespacedName, container: string)
    requires DotFree(key.namespace) && DotFree(container)
    ensures Split(PodToUnitName(key, container), '.')
         == [PREFIX, key.namespace] + (Split(key.name, '.') + [container, "service"])
  {
    UnitNameParts(key, container);
    TailPieces(key.name, container);
    assert DotFree(PREFIX);
    TwoLabels(PREFIX, key.namespace, key.name + "." + container + SERVICE_SUFFIX);
  }

  // Injective even for dotted pod names.
  lemma PiecesInjective(n1: string, a: seq<string>, c1: string, n2: string, b: seq<string>, c2: string)
    requires [PREFIX, n1] + (a + [c1, "service"]) == [PREFIX, n2] + (b + [c2, "service"])
    ensures n1 == n2 && a == b && c1 == c2
  {
    var p, q := [PREFIX, n1] + (a + [c1, "service"]), [PREFIX, n2] + (b + [c2, "service"]);
    assert p[1] == n1 && q[1] == n2;
    assert p[|p| - 2] == c1 && q[|q| - 2] == c2;
    assert p[2..|p| - 2] == a && q[2..|q| - 2] == b;
  }

  lemma UnitNameInjective(k1: NamespacedName, c1: string, k2: NamespacedName, c2: string)
    requires DotFree(k1.namespace) && DotFree(c1) && DotFree(k2.namespace) && DotFree(c2)
    requires PodToUnitName(k1, c1) == PodToUnitName(k2, c2)
    ensures k1 == k2 && c1 == c2
  {
    UnitNamePieces(k1, c1);
    UnitNamePieces(k2, c2);
    PiecesInjective(k1.namespace, Split(k1.name, '.'), c1, k2.namespace, Split(k2.name, '.'), c2);
    JoinSplit(k1.name, '.');
    JoinSplit(k2.name, '.');
  }

  // What the readers make of it: the first label of the pod name, and the label after that one.
  lemma ReadersRead(key: NamespacedName, container: string)
    requires DotFree(key.namespace) && DotFree(container)
    ensures NamespaceOf(PodToUnitName(key, container)) == key.namespace
    ensures PodOf(PodToUnitName(key, container)) == Split(key.name, '.')[0]
    ensures ContainerOf(PodToUnitName(key, container)) == (Split(key.name, '.') + [container])[1]
  {
    UnitNamePieces(key, container);
    assert ([PREFIX, key.namespace] + (Split(key.name, '.') + [container, "service"]))[3]
      == (Split(key.name, '.') + [container])[1];
  }

  lemma OneLabel(name: string)
    ensures Split(name, '.')[0] == name <==> DotFree(name)
    ensures Split(name, '.') == [name] <==> DotFree(name)
  {
    SplitPieces(name, '.');
    if DotFree(name) {
      SplitWhole(name, '.');
    }
  }

  // The readers invert it exactly for pod names without a dot.
  lemma ReadersInvert(key: NamespacedName, container: string)
    requires DotFree(key.namespace) && DotFree(container)
    ensures NamespaceOf(PodToUnitName(key, container)) == key.namespace
    ensures PodOf(PodToUnitName(key, container)) == key.name <==> DotFree(key.name)
    ensures DotFree(key.name) ==> ContainerOf(PodToUnitName(key, container)) == container
    ensures DotFree(key.name) ==> NameOf(PodToUnitName(key, container)) == key.namespace + "." + key.name
  {
    UnitNamePieces(key, container);
    SplitPieces(key.name, '.');
    if DotFree(key.name) {
      SplitWhole(key.name, '.');
    }
  }

  // States: the units with the prefix and the service suffix.
  predicate Selected(unitName: string, prefix: string) {
    HasPrefix(unitName, prefix) && HasSuffix(unitName, SERVICE_SUFFIX)
  }

  function States(names: set<string>, prefix: string): set<string> {
    set n | n in names && Selected(n, prefix)
  }

  // The prefix GetPod asks for: with the closing dot.
  function GetPodPrefix(key: NamespacedName): string {
    UnitPrefix(key.namespace, key.name) + "."
  }

  lemma UnitNameSelected(key: NamespacedName, container: string)
    ensures Selected(PodToUnitName(key, container), GetPodPrefix(key))
  {
    var n := PodToUnitName(key, container);
    assert n == GetPodPrefix(key) + (container + SERVICE_SUFFIX);
    assert n[|n| - |SERVICE_SUFFIX|..] == SERVICE_SUFFIX;
  }

  lemma HasPrefixAppend(a: string, b: string, s: string)
    ensures HasPrefix(a + s, a + b) <==> HasPrefix(s, b)
  {
    if HasPrefix(s, b) {
      assert (a + s)[..|a + b|] == a + s[..|b|];
    }
    if HasPrefix(a + s, a + b) {
      assert (a + s)[..|a + b|][|a|..] == s[..|b|];
      assert (a + b)[|a|..] == b;
    }
  }

  // A label up to its dot decides the label.
  lemma HasPrefixLabel(a: string, b: string, s: string, t: string)
    requires DotFree(a) && DotFree(b)
    ensures HasPrefix(a + "." + s, b + "." + t) <==> a == b && HasPrefix(s, t)
  {
    if HasPrefix(a + "." + s, b + "." + t) {
      var whole, lead := a + "." + s, b + "." + t;
      assert whole[..|lead|] == lead;
      assert |a| < |lead| ==> whole[|a|] == lead[|a|];
      assert whole[|b|] == lead[|b|];
      assert |a| == |b|;
      assert whole[..|a|] == a && lead[..|b|] == b;
    }
    if a == b {
      HasPrefixAppend(a + ".", t, s);
    }
  }

  // Exactly which units GetPod's prefix selects: those of the same namespace whose
  // "pod.container.service" starts with the pod name and a dot.
  lemma SelectedExactly(p: NamespacedName, q: NamespacedName, container: string)
    requires DotFree(p.namespace) && DotFree(q.namespace)
    ensures Selected(PodToUnitName(q, container), GetPodPrefix(p))
      <==> q.namespace == p.namespace && HasPrefix(q.name + "." + container + SERVICE_SUFFIX, p.name + ".")
  {
    var rest := q.name + "." + container + SERVICE_SUFFIX;
    UnitNameSelected(q, container);
    assert PodToUnitName(q, container) == (PREFIX + ".") + (q.namespace + "." + rest);
    assert GetPodPrefix(p) == (PREFIX + ".") + (p.namespace + "." + (p.name + "."));
    HasPrefixAppend(PREFIX + ".", p.namespace + "." + (p.name + "."), q.namespace + "." + rest);
    HasPrefixLabel(q.namespace, p.namespace, rest, p.name + ".");
  }

  // So for pod names without dots the selection is that pod's units and no others...
  lemma DotFreeSelected(p: NamespacedName, q: NamespacedName, container: string)
    requires DotFree(p.namespace) && DotFree(q.namespace) && DotFree(p.name) && DotFree(q.name)
    ensures Selected(PodToUnitName(q, container), GetPodPrefix(p)) <==> p == q
  {
    SelectedExactly(p, q, container);
    var rest := container + SERVICE_SUFFIX;
    assert q.name + "." + container + SERVICE_SUFFIX == q.name + "." + rest;
    assert p.name + "." == p.name + "." + "";
    HasPrefixLabel(q.name, p.name, rest, "");
    assert rest[..0] == "";
  }

  // ...while a dotted pod name "a.b" is caught both by pod "a" and by any pod "a" with container "b".
  lemma DottedOverlap(namespace: string, a: string, b: string, c: string)
    requires DotFree(namespace)
    ensures
      var short, long := NamespacedName(namespace, a), NamespacedName(namespace, a + "." + b);
      && Selected(PodToUnitName(long, c), GetPodPrefix(short))
      && Selected(PodToUnitName(short, b), GetPodPrefix(long))
      && short != long
  {
    var short, long := NamespacedName(namespace, a), NamespacedName(namespace, a + "." + b);
    SelectedExactly(short, long, c);
    SelectedExactly(long, short, b);
    var r1 := a + "." + b + "." + c + SERVICE_SUFFIX;
    assert r1[..|a + "."|] == a + ".";
    var r2 := a + "." + b + SERVICE_SUFFIX;
    assert r2[..|a + "." + b + "."|] == a + "." + b + ".";
  }
}
