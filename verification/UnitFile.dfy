// internal/unit/file.go: the option list of a unit file, its nested-map index, and the three edits.

module UnitFile {
  import opened Strings

  datatype UnitOption = UnitOption(section: string, name: string, value: string)

  type Index = map<string, map<string, seq<string>>>

  predicate Matches(o: UnitOption, section: string, name: string) {
    o.section == section && o.name == name
  }

  // The values given to section/name, in order.
  function Values(opts: seq<UnitOption>, section: string, name: string): seq<string> {
    if opts == [] then []
    else (if Matches(opts[0], section, name) then [opts[0].value] else []) + Values(opts[1..], section, name)
  }

  function Without(opts: seq<UnitOption>, section: string, name: string): seq<UnitOption> {
    if opts == [] then []
    else (if Matches(opts[0], section, name) then [] else [opts[0]]) + Without(opts[1..], section, name)
  }

  predicate HasSection(opts: seq<UnitOption>, section: string) {
    exists i :: 0 <= i < |opts| && opts[i].section == section
  }

  function Settings(section: string, name: string, values: seq<string>): seq<UnitOption> {
    seq(|values|, i requires 0 <= i < |values| => UnitOption(section, name, values[i]))
  }

  function Lookup(c: Index, section: string, name: string): seq<string> {
    if section in c && name in c[section] then c[section][name] else []
  }

  // What the index promises: a section is a key iff some option is in it, a name is a key of its
  // section iff some option has it, and the entry lists the values in file order.
  ghost predicate Indexes(c: Index, opts: seq<UnitOption>) {
    && (forall s :: s in c <==> HasSection(opts, s))
    && (forall s, n :: s in c ==> (n in c[s] <==> Values(opts, s, n) != []))
    && (forall s, n :: Lookup(c, s, n) == Values(opts, s, n))
  }

  lemma {:induction false} ValuesAppend(a: seq<UnitOption>, b: seq<UnitOption>, section: string, name: string)
    ensures Values(a + b, section, name) == Values(a, section, name) + Values(b, section, name)
  {
    if a == [] {
      assert a + b == b;
    } else {
      assert (a + b)[0] == a[0] && (a + b)[1..] == a[1..] + b;
      ValuesAppend(a[1..], b, section, name);
      Associates(if Matches(a[0], section, name) then [a[0].value] else [], Values(a[1..], section, name),
        Values(b, section, name));
    }
  }

  lemma {:induction false} WithoutAppend(a: seq<UnitOption>, b: seq<UnitOption>, section: string, name: string)
    ensures Without(a + b, section, name) == Without(a, section, name) + Without(b, section, name)
  {
    if a == [] {
      assert a + b == b;
    } else {
      assert (a + b)[0] == a[0] && (a + b)[1..] == a[1..] + b;
      WithoutAppend(a[1..], b, section, name);
      Associates(if Matches(a[0], section, name) then [] else [a[0]], Without(a[1..], section, name),
        Without(b, section, name));
    }
  }

  lemma ValuesSnoc(opts: seq<UnitOption>, o: UnitOption, section: string, name: string)
    ensures Values(opts + [o], section, name)
         == Values(opts, section, name) + (if Matches(o, section, name) then [o.value] else [])
  {
    ValuesAppend(opts, [o], section, name);
    assert [o][1..] == [];
  }

  lemma WithoutSnoc(opts: seq<UnitOption>, o: UnitOption, section: string, name: string)
    ensures Without(opts + [o], section, name)
         == Without(opts, section, name) + (if Matches(o, section, name) then [] else [o])
  {
    WithoutAppend(opts, [o], section, name);
    assert [o][1..] == [];
  }

  lemma {:induction false} ValuesOfSettings(section: string, name: string, values: seq<string>, s: string, n: string)
    ensures Values(Settings(section, name, values), s, n) == if s == section && n == name then values else []
  {
    if values != [] {
      ValuesOfSettings(section, name, values[1..], s, n);
      assert Settings(section, name, values)[1..] == Settings(section, name, values[1..]);
    }
  }

  lemma {:induction false} ValuesOfWithout(opts: seq<UnitOption>, section: string, name: string, s: string, n: string)
    ensures Values(Without(opts, section, name), s, n) == if s == section && n == name then [] else Values(opts, s, n)
  {
    if opts != [] {
      ValuesOfWithout(opts[1..], section, name, s, n);
      var head := if Matches(opts[0], section, name) then [] else [opts[0]];
      ValuesAppend(head, Without(opts[1..], section, name), s, n);
      assert head != [] ==> head[1..] == [];
    }
  }

  lemma {:induction false} ValuesNone(opts: seq<UnitOption>, section: string, name: string)
    ensures (Values(opts, section, name) == []) <==> (forall i :: 0 <= i < |opts| ==> !Matches(opts[i], section, name))
  {
    if opts != [] {
      ValuesNone(opts[1..], section, name);
      assert forall i :: 1 <= i < |opts| ==> opts[i] == opts[1..][i - 1];
      assert forall i :: 0 <= i < |opts[1..]| ==> opts[1..][i] == opts[i + 1];
    }
  }

  // Two indexes of option lists with the same values are equal: the index is determined.
  lemma IndexDetermined(c: Index, d: Index, opts: seq<UnitOption>)
    requires Indexes(c, opts) && Indexes(d, opts)
    ensures c == d
  {
    assert c.Keys == d.Keys;
    forall s | s in c
      ensures c[s] == d[s]
    {
      assert forall n :: n in c[s] <==> n in d[s];
      forall n | n in c[s]
        ensures c[s][n] == d[s][n]
      {
        assert Lookup(c, s, n) == Lookup(d, s, n);
      }
    }
  }

  // mapOptions, as the fold its loop computes.
  function AddOption(c: Index, o: UnitOption): Index {
    var names := if o.section in c then c[o.section] else map[];
    var values := if o.name in names then names[o.name] else [];
    c[o.section := names[o.name := values + [o.value]]]
  }

  function MapOptions(opts: seq<UnitOption>): Index {
    if opts == [] then map[]
    else AddOption(MapOptions(opts[..|opts| - 1]), opts[|opts| - 1])
  }

  lemma AddOptionLookup(c: Index, o: UnitOption, s: string, n: string)
    ensures Lookup(AddOption(c, o), s, n) == Lookup(c, s, n) + (if Matches(o, s, n) then [o.value] else [])
    ensures s in AddOption(c, o) <==> s in c || s == o.section
    ensures s in AddOption(c, o) ==>
      (n in AddOption(c, o)[s] <==> (s in c && n in c[s]) || Matches(o, s, n))
  {
  }

  lemma HasSectionSnoc(opts: seq<UnitOption>, o: UnitOption, s: string)
    ensures HasSection(opts + [o], s) <==> HasSection(opts, s) || s == o.section
  {
    if s == o.section { assert (opts + [o])[|opts|].section == s; }
    if HasSection(opts, s) {
      var i :| 0 <= i < |opts| && opts[i].section == s;
      assert (opts + [o])[i].section == s;
    }
  }

  lemma ValuesNeedSection(opts: seq<UnitOption>, section: string, name: string)
    ensures Values(opts, section, name) != [] ==> HasSection(opts, section)
  {
    ValuesNone(opts, section, name);
  }

  lemma AddOptionIndexes(c: Index, opts: seq<UnitOption>, o: UnitOption)
    requires Indexes(c, opts)
    ensures Indexes(AddOption(c, o), opts + [o])
  {
    var d, more := AddOption(c, o), opts + [o];
    forall s
      ensures s in d <==> HasSection(more, s)
    {
      AddOptionLookup(c, o, s, "");
      HasSectionSnoc(opts, o, s);
    }
    forall s, n
      ensures Lookup(d, s, n) == Values(more, s, n)
      ensures s in d ==> (n in d[s] <==> Values(more, s, n) != [])
    {
      AddOptionLookup(c, o, s, n);
      ValuesSnoc(opts, o, s, n);
      ValuesNeedSection(opts, s, n);
    }
  }

  lemma {:induction false} MapOptionsIndexes(opts: seq<UnitOption>)
    ensures Indexes(MapOptions(opts), opts)
  {
    if opts != [] {
      var before, o := opts[..|opts| - 1], opts[|opts| - 1];
      assert before + [o] == opts;
      MapOptionsIndexes(before);
      AddOptionIndexes(MapOptions(before), before, o);
      assert MapOptions(opts) == AddOption(MapOptions(before), o);
    }
  }

  lemma AddOptionSteps(c: Index, o: UnitOption)
    ensures
      var c1 := if o.section in c then c else c[o.section := map[]];
      var c2 := if o.name in c1[o.section] then c1 else c1[o.section := c1[o.section][o.name := []]];
      c2[o.section := c2[o.section][o.name := c2[o.section][o.name] + [o.value]]] == AddOption(c, o)
  {
    var c1 := if o.section in c then c else c[o.section := map[]];
    var c2 := if o.name in c1[o.section] then c1 else c1[o.section := c1[o.section][o.name := []]];
    var c3 := c2[o.section := c2[o.section][o.name := c2[o.section][o.name] + [o.value]]];
    assert c3[o.section] == AddOption(c, o)[o.section];
    assert [] + [o.value] == [o.value];
  }

  method IndexOptions(opts: seq<UnitOption>) returns (contents: Index)
    ensures contents == MapOptions(opts)
    ensures Indexes(contents, opts)
  {
    contents := map[];
    for i := 0 to |opts|
      invariant contents == MapOptions(opts[..i])
    {
      var opt := opts[i];
      ghost var before := contents;
      if opt.section !in contents {
        contents := contents[opt.section := map[]];
      }
      if opt.name !in contents[opt.section] {
        contents := contents[opt.section := contents[opt.section][opt.name := []]];
      }
      var names := contents[opt.section];
      contents := contents[opt.section := names[opt.name := names[opt.name] + [opt.value]]];
      assert opts[..i + 1][..i] == opts[..i];
      AddOptionSteps(before, opt);
    }
    assert opts[..|opts|] == opts;
    MapOptionsIndexes(opts);
  }

  // The edits on option lists.
  datatype Edit =
    | Ins(section: string, name: string, values: seq<string>)
    | Ovr(section: string, name: string, values: seq<string>)
    | Del(section: string, name: string)

  function ApplyOne(opts: seq<UnitOption>, e: Edit): seq<UnitOption> {
    match e
    case Ins(s, n, values) => opts + Settings(s, n, values)
    case Ovr(s, n, values) => Without(opts, s, n) + Settings(s, n, values)
    case Del(s, n) => Without(opts, s, n)
  }

  function Apply(opts: seq<UnitOption>, edits: seq<Edit>): seq<UnitOption> {
    if edits == [] then opts
    else ApplyOne(Apply(opts, edits[..|edits| - 1]), edits[|edits| - 1])
  }

  predicate Touches(e: Edit, section: string, name: string) {
    e.section == section && e.name == name
  }

  predicate Untouched(edits: seq<Edit>, section: string, name: string) {
    forall i :: 0 <= i < |edits| ==> !Touches(edits[i], section, name)
  }

  // One edit, seen through one section/name.
  function EditValues(values: seq<string>, e: Edit, section: string, name: string): seq<string> {
    if !Touches(e, section, name) then values
    else match e
      case Ins(_, _, more) => values + more
      case Ovr(_, _, fresh') => fresh'
      case Del(_, _) => []
  }

  lemma ApplyOneValues(opts: seq<UnitOption>, e: Edit, section: string, name: string)
    ensures Values(ApplyOne(opts, e), section, name) == EditValues(Values(opts, section, name), e, section, name)
  {
    ValuesOfWithout(opts, e.section, e.name, section, name);
    match e
    case Del(_, _) =>
    case Ins(s, n, values) =>
      ValuesAppend(opts, Settings(s, n, values), section, name);
      ValuesOfSettings(s, n, values, section, name);
    case Ovr(s, n, values) =>
      ValuesAppend(Without(opts, s, n), Settings(s, n, values), section, name);
      ValuesOfSettings(s, n, values, section, name);
  }

  lemma {:induction false} ApplyAppend(opts: seq<UnitOption>, a: seq<Edit>, b: seq<Edit>)
    ensures Apply(opts, a + b) == Apply(Apply(opts, a), b)
  {
    if b == [] {
      assert a + b == a;
    } else {
      var k := |b| - 1;
      ApplyAppend(opts, a, b[..k]);
      assert (a + b)[..|a + b| - 1] == a + b[..k];
    }
  }

  // Edits elsewhere leave the values of a section/name alone, order included.
  lemma {:induction false} ApplyUntouched(opts: seq<UnitOption>, edits: seq<Edit>, section: string, name: string)
    requires Untouched(edits, section, name)
    ensures Values(Apply(opts, edits), section, name) == Values(opts, section, name)
  {
    if edits != [] {
      var k := |edits| - 1;
      ApplyUntouched(opts, edits[..k], section, name);
      ApplyOneValues(Apply(opts, edits[..k]), edits[k], section, name);
    }
  }

  // The last edit that touches a section/name decides its values.
  lemma ApplyLast(opts: seq<UnitOption>, before: seq<Edit>, e: Edit, after: seq<Edit>)
    requires Untouched(after, e.section, e.name)
    ensures Values(Apply(opts, before + [e] + after), e.section, e.name)
         == EditValues(Values(Apply(opts, before), e.section, e.name), e, e.section, e.name)
  {
    ApplyAppend(opts, before + [e], after);
    ApplyUntouched(Apply(opts, before + [e]), after, e.section, e.name);
    assert (before + [e])[..|before|] == before;
    ApplyOneValues(Apply(opts, before), e, e.section, e.name);
  }

  // Deleting leaves the index stale exactly when there was something to delete.
  lemma DeleteStale(opts: seq<UnitOption>, section: string, name: string)
    ensures MapOptions(opts) == MapOptions(Without(opts, section, name)) <==> Values(opts, section, name) == []
  {
    MapOptionsIndexes(opts);
    MapOptionsIndexes(Without(opts, section, name));
    ValuesOfWithout(opts, section, name, section, name);
    if Values(opts, section, name) == [] {
      WithoutAbsent(opts, section, name);
    } else {
      assert Lookup(MapOptions(opts), section, name) != Lookup(MapOptions(Without(opts, section, name)), section, name);
    }
  }

  lemma {:induction false} WithoutAbsent(opts: seq<UnitOption>, section: string, name: string)
    requires Values(opts, section, name) == []
    ensures Without(opts, section, name) == opts
  {
    if opts != [] {
      WithoutAbsent(opts[1..], section, name);
    }
  }

  // File: the options are a Go slice, that is a backing array and a length, and files share arrays.
  class File {
    var contents: Index
    var options: array<UnitOption>
    var len: nat

    predicate Valid()
      reads this
    {
      len <= options.Length
    }

    function Options(): seq<UnitOption>
      reads this, options
      requires Valid()
    {
      options[..len]
    }

    // newFromOptions
    constructor FromOptions(options: array<UnitOption>, len: nat)
      requires len <= options.Length
      ensures this.options == options && this.len == len && Valid()
      ensures contents == MapOptions(Options())
    {
      this.options := options;
      this.len := len;
      new;
      contents := IndexOptions(options[..len]);
    }

    // append(u.Options, opts...): in place while the capacity lasts, else into a new, larger array.
    method Append(opts: seq<UnitOption>)
      requires Valid()
      modifies this`options, this`len, options
      ensures Valid() && Options() == old(Options()) + opts && len == old(len) + |opts|
      ensures if old(len) + |opts| <= old(options).Length then options == old(options) else fresh(options)
      ensures forall i :: 0 <= i < old(options).Length && (options != old(options) || !(old(len) <= i < len)) ==>
        old(options)[i] == old(options[i])
    {
      var was := options;
      if len + |opts| > options.Length {
        var capacity: nat :| capacity >= len + |opts|;
        options := new UnitOption[capacity];
        forall i | 0 <= i < len {
          options[i] := was[i];
        }
      }
      forall i | 0 <= i < |opts| {
        options[len + i] := opts[i];
      }
      len := len + |opts|;
    }

    method Insert(section: string, name: string, value: seq<string>) returns (r: File)
      requires Valid()
      modifies this`options, this`len, options
      ensures Valid() && Options() == ApplyOne(old(Options()), Ins(section, name, value))
      ensures fresh(r) && r.Valid() && r.options == options && r.len == len
      ensures r.contents == MapOptions(r.Options())
      ensures if old(len) + |value| <= old(options).Length then options == old(options) else fresh(options)
      ensures forall i :: 0 <= i < old(options).Length && (options != old(options) || !(old(len) <= i < len)) ==>
        old(options)[i] == old(options[i])
    {
      Append(Settings(section, name, value));
      r := new File.FromOptions(options, len);
    }

    // The filter of Overwrite and Delete: a new array, filled up to j.
    method Keep(section: string, name: string)
      requires Valid()
      modifies this`options, this`len
      ensures Valid() && fresh(options) && Options() == Without(old(Options()), section, name)
      ensures options.Length == old(len)
    {
      var was, n := options, len;
      var opts := new UnitOption[n];
      var j := 0;
      for k := 0 to n
        invariant 0 <= j <= k
        invariant opts[..j] == Without(was[..k], section, name)
      {
        var o := was[k];
        WithoutSnoc(was[..k], o, section, name);
        assert was[..k + 1] == was[..k] + [o];
        if Matches(o, section, name) {
          continue;
        }
        opts[j] := o;
        j := j + 1;
      }
      options, len := opts, j;
    }

    method Overwrite(section: string, name: string, value: seq<string>) returns (r: File)
      requires Valid()
      modifies this`options, this`len
      ensures Valid() && fresh(options) && Options() == ApplyOne(old(Options()), Ovr(section, name, value))
      ensures fresh(r) && r.Valid() && r.options == options && r.len == len
      ensures r.contents == MapOptions(r.Options())
    {
      Keep(section, name);
      r := Insert(section, name, value);
    }

    // Delete hands back the receiver: its index is not rebuilt.
    method Delete(section: string, name: string) returns (r: File)
      requires Valid()
      modifies this`options, this`len
      ensures r == this && Valid() && fresh(options)
      ensures Options() == ApplyOne(old(Options()), Del(section, name))
    {
      Keep(section, name);
      r := this;
    }
  }

  // Linear use: when each result replaces the variable, as CreatePod does, every edit sees exactly
  // the options its predecessors left, however the backing arrays are shared or outgrown; and the
  // index of the last file is that of its options as soon as the last edit is not a deletion.
  method EditInTurn(u: File, edits: seq<Edit>) returns (r: File)
    requires u.Valid()
    modifies u, u.options
    ensures r.Valid() && (r == u || fresh(r)) && (r.options == old(u.options) || fresh(r.options))
    ensures r.Options() == Apply(old(u.Options()), edits)
    ensures |edits| > 0 && !edits[|edits| - 1].Del? ==> r.contents == MapOptions(r.Options())
  {
    r := u;
    for i := 0 to |edits|
      invariant r.Valid() && (r == u || fresh(r)) && (r.options == old(u.options) || fresh(r.options))
      invariant r.Options() == Apply(old(u.Options()), edits[..i])
      invariant i > 0 && !edits[i - 1].Del? ==> r.contents == MapOptions(r.Options())
    {
      match edits[i]
      {
        case Ins(s, n, values) => r := r.Insert(s, n, values);
        case Ovr(s, n, values) => r := r.Overwrite(s, n, values);
        case Del(s, n) => r := r.Delete(s, n);
      }
      assert edits[..i + 1][..i] == edits[..i];
    }
    assert edits[..|edits|] == edits;
  }

  // Branching use is not safe. Two files that share array and length, as receiver and result of an Insert
  // do, insert one option each: the first one's survives iff there was no spare capacity, or it is the same.
  method BranchingClobbers(u: File, v: File, a: UnitOption, b: UnitOption) returns (left: File, right: File)
    requires u != v && u.Valid() && v.Valid() && u.options == v.options && u.len == v.len
    modifies u, v, u.options
    ensures left.Valid() && right.Valid() && left != right
    ensures left.Options() == old(u.Options()) + [if old(u.len) < old(u.options.Length) then b else a]
    ensures right.Options() == old(u.Options()) + [b]
    ensures left.Options() == old(u.Options()) + [a] <==> old(u.len) == old(u.options.Length) || a == b
  {
    ghost var before := u.Options();
    left := u.Insert(a.section, a.name, [a.value]);
    assert left.Options() == before + [a];
    right := v.Insert(b.section, b.name, [b.value]);
    assert right.Options() == before + [b];
    LastDiffers(before, a, b);
  }

  lemma LastDiffers(opts: seq<UnitOption>, a: UnitOption, b: UnitOption)
    ensures opts + [a] == opts + [b] <==> a == b
  {
    assert (opts + [a])[|opts|] == a && (opts + [b])[|opts|] == b;
  }
}
