// Values that are more than one setting: which options their lines begin, and what becomes of the file
// around them.

module Strays {
  import opened Strings
  import opened UnitFile
  import opened UnitText
  import opened Shipped
  import opened ByField

  // ---- How often an option is begun.

  function Open(m: Mode, s: string, n: string): nat {
    if m.In? && m.section == s && m.name == n then 1 else 0
  }

  // Options s/n begun on the way from m to p.
  function Begun(m: Mode, p: Progress, s: string, n: string): nat {
    var all := |Values(p.done, s, n)| + Open(p.mode, s, n);
    if all >= Open(m, s, n) then all - Open(m, s, n) else 0
  }

  lemma ValuesOne(o: UnitOption, s: string, n: string)
    ensures Values([o], s, n) == if Matches(o, s, n) then [o.value] else []
  {
    assert [o][1..] == [];
  }

  lemma TakenBegins(section: string, name: string, value: string, line: string, s: string, n: string)
    ensures
      var p := Taken(section, name, value, line);
      |Values(p.done, s, n)| + Open(p.mode, s, n) == Open(In(section, name, ""), s, n)
  {
    ValuesOne(UnitOption(section, name, Trim(value)), s, n);
  }

  lemma StepBegins(m: Mode, line: string, s: string, n: string)
    requires Step(m, line).Some?
    ensures
      var p := Step(m, line).value;
      |Values(p.done, s, n)| + Open(p.mode, s, n) >= Open(m, s, n)
  {
    match m
    case In(section, name, value) => TakenBegins(section, name, value + "\n" + line, line, s, n);
    case At(section) =>
      match Classify(line)
      case Setting(name, first) => TakenBegins(section, name, first, first, s, n);
      case _ =>
  }

  // What was open is still so, or complete.
  lemma {:induction false} FeedBegins(m: Mode, lines: seq<string>, s: string, n: string)
    requires Feed(m, lines).Some?
    ensures
      var p := Feed(m, lines).value;
      |Values(p.done, s, n)| + Open(p.mode, s, n) == Open(m, s, n) + Begun(m, p, s, n)
    decreases |lines|
  {
    if lines != [] {
      var p := Step(m, lines[0]).value;
      StepBegins(m, lines[0], s, n);
      FeedBegins(p.mode, lines[1..], s, n);
      ValuesAppend(p.done, Feed(p.mode, lines[1..]).value.done, s, n);
    }
  }

  // How often s/n is begun by fields that are not meant for it, each read where it stands.
  function Brought(m: Mode, opts: seq<UnitOption>, s: string, n: string): nat
    decreases |opts|
  {
    if opts == [] then 0
    else
      match Feed(m, FieldLines(opts[0]))
      case None => 0
      case Some(p) => (if Matches(opts[0], s, n) then 0 else Begun(m, p, s, n)) + Brought(p.mode, opts[1..], s, n)
  }

  // The fields that are meant for s/n stand in that section, between options, and return.
  predicate InPlace(m: Mode, opts: seq<UnitOption>, s: string, n: string)
    decreases |opts|
  {
    opts == []
    || (match Feed(m, FieldLines(opts[0]))
        case None => true
        case Some(p) =>
          (Matches(opts[0], s, n) ==> m == At(s) && Returns(opts[0].value, false))
          && InPlace(p.mode, opts[1..], s, n))
  }

  // The count so far, and if nothing else begins s/n, the values so far.
  ghost predicate Tallies(m: Mode, p: Progress, values: seq<string>, brought: nat, s: string, n: string) {
    && |Values(p.done, s, n)| + Open(p.mode, s, n) == Open(m, s, n) + |values| + brought
    && (brought == 0 && Open(m, s, n) == 0 ==> Values(p.done, s, n) == TrimEach(values) && Open(p.mode, s, n) == 0)
  }

  lemma FieldTallies(m: Mode, o: UnitOption, s: string, n: string)
    requires PrintableName(o.name) && Feed(m, FieldLines(o)).Some?
    requires Matches(o, s, n) ==> m == At(s) && Returns(o.value, false)
    ensures
      var p := Feed(m, FieldLines(o)).value;
      Tallies(m, p, Values([o], s, n), if Matches(o, s, n) then 0 else Begun(m, p, s, n), s, n)
  {
    ValuesOne(o, s, n);
    FeedBegins(m, FieldLines(o), s, n);
    if Matches(o, s, n) {
      CalmAt(s, o);
      ValuesOne(Trimmed(o), s, n);
    } else if Values(Feed(m, FieldLines(o)).value.done, s, n) != [] {
      assert Begun(m, Feed(m, FieldLines(o)).value, s, n) > 0 || Open(m, s, n) > 0;
    }
  }

  lemma TalliesAppend(m: Mode, p: Progress, q: Progress, x: seq<string>, y: seq<string>, a: nat, b: nat, s: string,
                      n: string)
    requires Tallies(m, p, x, a, s, n) && Tallies(p.mode, q, y, b, s, n)
    ensures Tallies(m, Progress(p.done + q.done, q.mode), x + y, a + b, s, n)
  {
    ValuesAppend(p.done, q.done, s, n);
    assert TrimEach(x + y) == TrimEach(x) + TrimEach(y);
  }

  lemma {:induction false} BlockTallies(m: Mode, opts: seq<UnitOption>, s: string, n: string)
    requires Named(opts) && Feed(m, Lines(opts)).Some? && InPlace(m, opts, s, n)
    ensures Tallies(m, Feed(m, Lines(opts)).value, Values(opts, s, n), Brought(m, opts, s, n), s, n)
    decreases |opts|
  {
    if opts == [] {
      assert TrimEach([]) == [];
    } else {
      var o, rest := opts[0], opts[1..];
      assert opts == [o] + rest && o in opts;
      FeedAppend(m, FieldLines(o), Lines(rest));
      var p := Feed(m, FieldLines(o)).value;
      FieldTallies(m, o, s, n);
      BlockTallies(p.mode, rest, s, n);
      ValuesAppend([o], rest, s, n);
      TalliesAppend(m, p, Feed(p.mode, Lines(rest)).value, Values([o], s, n), Values(rest, s, n),
        if Matches(o, s, n) then 0 else Begun(m, p, s, n), Brought(p.mode, rest, s, n), s, n);
    }
  }

  // The same for the whole file, section by section.
  function BroughtIn(opts: seq<UnitOption>, s: string, n: string): nat
    decreases |opts|
  {
    if opts == [] then 0
    else
      Brought(At(opts[0].section), FirstBlock(opts), s, n) + BroughtIn(OutOfSection(opts[1..], opts[0].section), s, n)
  }

  predicate AllInPlace(opts: seq<UnitOption>, s: string, n: string) {
    InPlace(At(s), InSection(opts, s), s, n)
  }

  lemma {:induction false} NoneInPlace(m: Mode, opts: seq<UnitOption>, s: string, n: string)
    requires forall o :: o in opts ==> !Matches(o, s, n)
    ensures InPlace(m, opts, s, n)
    decreases |opts|
  {
    if opts != [] {
      assert opts[0] in opts;
      if Feed(m, FieldLines(opts[0])).Some? {
        NoneInPlace(Feed(m, FieldLines(opts[0])).value.mode, opts[1..], s, n);
      }
    }
  }

  ghost predicate Agrees(read: seq<string>, values: seq<string>, brought: nat) {
    |read| == |values| + brought && (brought == 0 ==> read == TrimEach(values))
  }

  lemma EndedTallies(p: Progress, section: string, values: seq<string>, brought: nat, s: string, n: string)
    requires Tallies(At(section), p, values, brought, s, n)
    ensures Agrees(Values(p.done + Ended(p.mode), s, n), values, brought)
  {
    ValuesAppend(p.done, Ended(p.mode), s, n);
    if p.mode.In? {
      ValuesOne(Ended(p.mode)[0], s, n);
    }
  }

  lemma BlockAgrees(section: string, block: seq<UnitOption>, s: string, n: string)
    requires Named(block) && InPlace(At(section), block, s, n) && ReadBlock(section, block).Some?
    ensures Agrees(Values(ReadBlock(section, block).value, s, n), Values(block, s, n),
                   Brought(At(section), block, s, n))
  {
    FeedParses(At(section), Lines(block));
    BlockTallies(At(section), block, s, n);
    EndedTallies(Feed(At(section), Lines(block)).value, section, Values(block, s, n),
      Brought(At(section), block, s, n), s, n);
  }

  lemma AgreesAppend(a: seq<string>, b: seq<string>, x: seq<string>, y: seq<string>, i: nat, j: nat)
    requires Agrees(a, x, i) && Agrees(b, y, j)
    ensures Agrees(a + b, x + y, i + j)
  {
    assert TrimEach(x + y) == TrimEach(x) + TrimEach(y);
  }

  lemma BlockInPlace(opts: seq<UnitOption>, s: string, n: string)
    requires opts != [] && AllInPlace(opts, s, n)
    ensures InPlace(At(opts[0].section), FirstBlock(opts), s, n)
    ensures AllInPlace(OutOfSection(opts[1..], opts[0].section), s, n)
    ensures Values(opts, s, n)
         == Values(FirstBlock(opts), s, n) + Values(OutOfSection(opts[1..], opts[0].section), s, n)
  {
    var own, rest := opts[0].section, OutOfSection(opts[1..], opts[0].section);
    InSectionMembers(opts[1..], own);
    OutOfSectionMembers(opts[1..], own);
    InSectionMembers(rest, s);
    ValuesOfGroup(opts, s, n);
    ValuesOfGroup(rest, s, n);
    ValuesAppend(FirstBlock(opts), Group(rest), s, n);
    if s == own {
      NoneInPlace(At(s), InSection(rest, s), s, n);
    } else {
      NoneInPlace(At(own), FirstBlock(opts), s, n);
      InOfOut(opts[1..], own, s);
      assert [] + InSection(opts[1..], s) == InSection(opts[1..], s);
    }
  }

  lemma {:induction false} FileAgrees(opts: seq<UnitOption>, s: string, n: string)
    requires Named(opts) && AllInPlace(opts, s, n) && ReadApart(opts).Some?
    ensures Agrees(Values(ReadApart(opts).value, s, n), Values(opts, s, n), BroughtIn(opts, s, n))
    decreases |opts|
  {
    if opts == [] {
      assert TrimEach([]) == [];
    } else {
      var own, rest := opts[0].section, OutOfSection(opts[1..], opts[0].section);
      BlockOf(opts);
      BlockInPlace(opts, s, n);
      BlockAgrees(own, FirstBlock(opts), s, n);
      FileAgrees(rest, s, n);
      ValuesAppend(ReadBlock(own, FirstBlock(opts)).value, ReadApart(rest).value, s, n);
      AgreesAppend(Values(ReadBlock(own, FirstBlock(opts)).value, s, n), Values(ReadApart(rest).value, s, n),
        Values(FirstBlock(opts), s, n), Values(rest, s, n), Brought(At(own), FirstBlock(opts), s, n),
        BroughtIn(rest, s, n));
    }
  }

  // If the fields of an option are in place, it has its values back iff no other field begins one of it, and
  // in any case none is lost.
  lemma OwnValues(opts: seq<UnitOption>, s: string, n: string)
    requires Named(opts) && AllInPlace(opts, s, n) && Parse(Print(opts)).Some?
    ensures Values(Parse(Print(opts)).value, s, n) == TrimEach(Values(opts, s, n)) <==> BroughtIn(opts, s, n) == 0
    ensures |Values(Parse(Print(opts)).value, s, n)| == |Values(opts, s, n)| + BroughtIn(opts, s, n)
  {
    ReadByField(opts);
    FileAgrees(opts, s, n);
  }

  // ---- Sections are never lost.

  lemma {:induction false} FeedKeeps(m: Mode, lines: seq<string>, section: string)
    requires m.In? && m.section == section && Feed(m, lines).Some?
    ensures HasSection(Finish(Feed(m, lines)).value, section)
    decreases |lines|
  {
    var p := Feed(m, lines).value;
    if lines == [] {
      assert Finish(Feed(m, lines)).value == [] + Ended(m);
      assert ([] + Ended(m))[0].section == section;
    } else {
      var q := Step(m, lines[0]).value;
      OntoTwice(q.done, [], Feed(q.mode, lines[1..]));
      if q.mode.In? {
        FeedKeeps(q.mode, lines[1..], section);
      } else {
        assert (q.done + Finish(Feed(q.mode, lines[1..])).value)[0].section == section;
      }
    }
  }

  lemma BlockKeeps(section: string, block: seq<UnitOption>)
    requires block != [] && Named(block) && ReadBlock(section, block).Some?
    ensures HasSection(ReadBlock(section, block).value, section)
  {
    var o, rest := block[0], block[1..];
    assert o in block;
    FieldText(o);
    FeedParses(At(section), Lines(block));
    var lines := Lines(block);
    assert lines[0] == FieldLines(o)[0];
    var p := Step(At(section), lines[0]).value;
    OntoTwice(p.done, [], Feed(p.mode, lines[1..]));
    if p.mode.In? {
      FeedKeeps(p.mode, lines[1..], section);
    } else {
      assert (p.done + Finish(Feed(p.mode, lines[1..])).value)[0].section == section;
    }
  }

  lemma HasSectionWithin(a: seq<UnitOption>, b: seq<UnitOption>, c: seq<UnitOption>, s: string)
    requires HasSection(b, s)
    ensures HasSection(a + (b + c), s)
  {
    var i :| 0 <= i < |b| && b[i].section == s;
    assert (a + (b + c))[|a| + i].section == s;
  }

  // A section with an option in it has one in the file that is read, whatever is in the values: its header
  // stands after a blank line, so nothing can take it in.
  lemma SectionsStay(opts: seq<UnitOption>, section: string)
    requires Named(opts) && HasSection(opts, section) && Parse(Print(opts)).Some?
    ensures HasSection(Parse(Print(opts)).value, section)
  {
    ReadByField(opts);
    ReadSection(opts, section);
    InSectionMembers(opts, section);
    HasSectionMember(opts, section);
    BlockKeeps(section, InSection(opts, section));
    HasSectionWithin(ReadApart(Front(opts, section)).value, ReadBlock(section, InSection(opts, section)).value,
      ReadApart(Back(opts, section)).value, section);
  }

  // ---- One field that does not return, in a file that comes back but for it.

  lemma OneFirst(a: seq<UnitOption>, o: UnitOption, b: seq<UnitOption>)
    requires a != [] && a[0].section != o.section
    ensures
      var s, rest := a[0].section, a[1..];
      && (a + [o] + b)[0] == a[0]
      && FirstBlock(a + [o] + b) == [a[0]] + (InSection(rest, s) + [] + InSection(b, s))
      && OutOfSection((a + [o] + b)[1..], s) == OutOfSection(rest, s) + [o] + OutOfSection(b, s)
  {
    var s, rest := a[0].section, a[1..];
    assert (a + [o] + b)[0] == a[0] && (a + [o] + b)[1..] == rest + [o] + b;
    PartsAround(rest, [o], b, o.section, s);
  }

  lemma OneOwn(a: seq<UnitOption>, o: UnitOption, b: seq<UnitOption>)
    requires a == [] || a[0].section == o.section
    ensures (a + [o] + b)[0].section == o.section
    ensures OutOfSection((a + [o] + b)[1..], o.section)
         == OutOfSection(if a == [] then [] else a[1..], o.section) + OutOfSection(b, o.section)
  {
    var own, rest := o.section, if a == [] then [] else a[1..];
    if a == [] {
      assert (a + [o] + b)[1..] == b && (a + [o] + b)[0] == o;
      assert [] + OutOfSection(b, own) == OutOfSection(b, own);
    } else {
      assert (a + [o] + b)[0] == a[0] && (a + [o] + b)[1..] == rest + [o] + b;
      PartsAround(rest, [o], b, own, own);
      assert OutOfSection(rest, own) + [] == OutOfSection(rest, own);
    }
  }

  // What stands around the section does not depend on the one field.
  lemma {:induction false} AroundSame(a: seq<UnitOption>, o: UnitOption, p: UnitOption, b: seq<UnitOption>)
    requires o.section == p.section
    ensures Front(a + [o] + b, o.section) == Front(a + [p] + b, o.section)
    ensures Back(a + [o] + b, o.section) == Back(a + [p] + b, o.section)
    decreases |a|
  {
    if a == [] || a[0].section == o.section {
      OneOwn(a, o, b);
      OneOwn(a, p, b);
    } else {
      var s := a[0].section;
      OneFirst(a, o, b);
      OneFirst(a, p, b);
      AroundSame(OutOfSection(a[1..], s), o, p, OutOfSection(b, s));
    }
  }

  lemma {:induction false} AroundReturns(opts: seq<UnitOption>, own: string)
    requires ComesBack(opts)
    ensures ComesBack(Front(opts, own)) && ComesBack(Back(opts, own))
    decreases |opts|
  {
    if opts != [] {
      var s := opts[0].section;
      var rest := OutOfSection(opts[1..], s);
      ComesBackParts(opts, s);
      assert [] + rest == rest;
      if s != own {
        AroundReturns(rest, own);
        InSectionMembers(opts[1..], s);
        OutOfSectionMembers(opts[1..], s);
        FrontMembers(rest, own);
        ComesBackApart(FirstBlock(opts), Front(rest, own), s);
      }
    }
  }

  // What stands in front of another option of the section returns also there.
  lemma {:induction false} BlockReturns(p: seq<UnitOption>, q: seq<UnitOption>, own: string)
    requires ComesBack(p + q) && q != [] && (forall o :: o in p ==> o.section == own) && q[0].section == own
    ensures ComesBack(q) && forall o :: o in p ==> Returns(o.value, false)
  {
    if p == [] {
      assert p + q == q;
    } else {
      assert (p + q)[0] == p[0] && (p + q)[1..] == p[1..] + q && p == [p[0]] + p[1..];
      assert p[0] in p && (p[1..] + q)[|p| - 1] == q[0];
      BlockReturns(p[1..], q, own);
    }
  }

  lemma RestReturns(o: UnitOption, q: seq<UnitOption>)
    requires ComesBack([o] + q)
    ensures ComesBack(q)
  {
    assert ([o] + q)[1..] == q;
  }

  // Reading o gives out and leaves the reader in section cur.
  predicate ReadsTo(o: UnitOption, out: seq<UnitOption>, cur: string) {
    PrintableSection(cur) && Feed(At(o.section), FieldLines(o)) == Some(Progress(out, At(cur)))
  }

  lemma OddBlock(p: seq<UnitOption>, o: UnitOption, sane: UnitOption, q: seq<UnitOption>, out: seq<UnitOption>,
                 cur: string)
    requires Named(p + [o] + q) && o.section == sane.section && forall x :: x in p + q ==> x.section == o.section
    requires ComesBack(p + [sane] + q) && ReadsTo(o, out, cur)
    ensures ReadBlock(o.section, p + [o] + q) == Some(TrimAll(p) + out + TrimAll(Moved(q, cur)))
  {
    var own := o.section;
    assert forall x :: x in p ==> x in p + [o] + q && x in p + q;
    assert forall x :: x in q ==> x in p + [o] + q && x in p + q;
    Associates(p, [sane], q);
    BlockReturns(p, [sane] + q, own);
    RestReturns(sane, q);
    CalmBlock(own, p);
    ReturningBlock(cur, own, q);
    assert Moved(p, own) == p;
    OddParses(p, o, q, out, cur);
  }

  lemma OddParses(p: seq<UnitOption>, o: UnitOption, q: seq<UnitOption>, out: seq<UnitOption>, cur: string)
    requires ReadsTo(o, out, cur) && Feed(At(o.section), Lines(p)) == Some(Progress(TrimAll(p), At(o.section)))
    requires ReadBlock(cur, q) == Some(TrimAll(Moved(q, cur)))
    ensures ReadBlock(o.section, p + [o] + q) == Some(TrimAll(p) + out + TrimAll(Moved(q, cur)))
  {
    var m := At(o.section);
    LinesAppend(p + [o], q);
    LinesAppend(p, [o]);
    LinesOne(o);
    FeedParses(m, Lines(p + [o] + q));
    FeedAppend(m, Lines(p + [o]), Lines(q));
    FeedAppend(m, Lines(p), FieldLines(o));
    FeedParses(At(cur), Lines(q));
    OntoTwice(TrimAll(p) + out, [], Feed(At(cur), Lines(q)));
  }

  lemma NamedParts(opts: seq<UnitOption>, own: string)
    requires Named(opts)
    ensures Named(Front(opts, own)) && Named(InSection(opts, own)) && Named(Back(opts, own))
  {
    FrontMembers(opts, own);
    InSectionMembers(opts, own);
  }

  // Then the file is read as that one, but for what the field gives and where the rest of its section goes.
  lemma OneOdd(a: seq<UnitOption>, o: UnitOption, sane: UnitOption, b: seq<UnitOption>, out: seq<UnitOption>,
               cur: string)
    requires Named(a + [o] + b) && o.section == sane.section && ComesBack(a + [sane] + b) && ReadsTo(o, out, cur)
    ensures
      var opts, own := a + [o] + b, o.section;
      Parse(Print(opts)) == Some(
        TrimAll(Group(Front(opts, own)))
        + (TrimAll(InSection(a, own)) + out + TrimAll(Moved(InSection(b, own), cur))
           + TrimAll(Group(Back(opts, own)))))
  {
    var opts, whole, own := a + [o] + b, a + [sane] + b, o.section;
    var p, q := InSection(a, own), InSection(b, own);
    AroundSame(a, o, sane, b);
    AroundReturns(whole, own);
    ComesBackParts(whole, own);
    PartsAround(a, [sane], b, own, own);
    PartsAround(a, [o], b, own, own);
    NamedParts(opts, own);
    InSectionMembers(a, own);
    InSectionMembers(b, own);
    OddBlock(p, o, sane, q, out, cur);
    AroundReads(opts, own);
    ReadByField(opts);
    ReadSection(opts, own);
    JoinedSome(TrimAll(Group(Front(opts, own))), TrimAll(p) + out + TrimAll(Moved(q, cur)),
      TrimAll(Group(Back(opts, own))));
  }

  lemma JoinedSome(a: seq<UnitOption>, b: seq<UnitOption>, c: seq<UnitOption>)
    ensures Joined(Some(a), Joined(Some(b), Some(c))) == Some(a + (b + c))
  {
  }

  lemma {:induction false} ValuesOfMoved(opts: seq<UnitOption>, own: string, cur: string, s: string, n: string)
    requires forall o :: o in opts ==> o.section == own
    ensures Values(Moved(opts, cur), s, n) == if s == cur then Values(opts, own, n) else []
  {
    if opts != [] {
      MovedCons(opts, cur);
      assert opts[0] in opts;
      ValuesOfMoved(opts[1..], own, cur, s, n);
    }
  }

  lemma NoneOf(opts: seq<UnitOption>, s: string, n: string)
    requires forall o :: o in opts ==> o.section != s
    ensures Values(opts, s, n) == []
  {
    ValuesNone(opts, s, n);
  }

  lemma OddValues(front: seq<UnitOption>, p: seq<UnitOption>, out: seq<UnitOption>, q: seq<UnitOption>,
                  back: seq<UnitOption>, own: string, cur: string, s: string, n: string)
    requires (forall o :: o in p ==> o.section == own) && (forall o :: o in q ==> o.section == own)
    ensures
      Values(TrimAll(Group(front)) + (TrimAll(p) + out + TrimAll(Moved(q, cur)) + TrimAll(Group(back))), s, n)
      == TrimEach(Values(front, s, n))
         + (TrimEach(Values(p, s, n)) + Values(out, s, n) + (if s == cur then TrimEach(Values(q, own, n)) else [])
            + TrimEach(Values(back, s, n)))
  {
    var a, b, c, d := TrimAll(Group(front)), TrimAll(p), TrimAll(Moved(q, cur)), TrimAll(Group(back));
    ValuesAppend(a, b + out + c + d, s, n);
    ValuesAppend(b + out + c, d, s, n);
    ValuesAppend(b + out, c, s, n);
    ValuesAppend(b, out, s, n);
    ValuesOfTrimAll(Group(front), s, n);
    ValuesOfTrimAll(p, s, n);
    ValuesOfTrimAll(Moved(q, cur), s, n);
    ValuesOfTrimAll(Group(back), s, n);
    ValuesOfGroup(front, s, n);
    ValuesOfGroup(back, s, n);
    ValuesOfMoved(q, own, cur, s, n);
    assert TrimEach([]) == [];
  }

  // The options of its own section: those before it come back, those after it only if it leaves the reader
  // there.
  lemma OneOddOwn(a: seq<UnitOption>, o: UnitOption, sane: UnitOption, b: seq<UnitOption>, out: seq<UnitOption>,
                  cur: string, n: string)
    requires Named(a + [o] + b) && o.section == sane.section && ComesBack(a + [sane] + b) && ReadsTo(o, out, cur)
    ensures Parse(Print(a + [o] + b)).Some?
    ensures Values(Parse(Print(a + [o] + b)).value, o.section, n)
         == TrimEach(Values(a, o.section, n)) + Values(out, o.section, n)
            + (if cur == o.section then TrimEach(Values(b, o.section, n)) else [])
  {
    var opts, own := a + [o] + b, o.section;
    var p, q := InSection(a, own), InSection(b, own);
    OneOdd(a, o, sane, b, out, cur);
    InSectionMembers(a, own);
    InSectionMembers(b, own);
    OddValues(Front(opts, own), p, out, q, Back(opts, own), own, cur, own, n);
    FrontMembers(opts, own);
    NoneOf(Front(opts, own), own, n);
    NoneOf(Back(opts, own), own, n);
    ValuesInOut(a, own, own, n);
    ValuesInOut(b, own, own, n);
    Alone(TrimEach(Values(a, own, n)) + Values(out, own, n)
      + (if cur == own then TrimEach(Values(b, own, n)) else []));
  }

  lemma Alone(x: seq<string>)
    ensures TrimEach([]) + (x + TrimEach([])) == x
  {
  }

  // The options of another section that stands before it in the file: all come back, then what it gives.
  lemma OneOddOther(a: seq<UnitOption>, o: UnitOption, sane: UnitOption, b: seq<UnitOption>, out: seq<UnitOption>,
                    cur: string, s: string, n: string)
    requires Named(a + [o] + b) && o.section == sane.section && ComesBack(a + [sane] + b) && ReadsTo(o, out, cur)
    requires s != o.section && Precedes(a, s, o.section)
    ensures Parse(Print(a + [o] + b)).Some?
    ensures Values(Parse(Print(a + [o] + b)).value, s, n)
         == TrimEach(Values(a + [o] + b, s, n)) + Values(out, s, n)
            + (if cur == s then TrimEach(Values(b, o.section, n)) else [])
  {
    var opts, own := a + [o] + b, o.section;
    var p, q := InSection(a, own), InSection(b, own);
    OneOdd(a, o, sane, b, out, cur);
    InSectionMembers(a, own);
    InSectionMembers(b, own);
    OddValues(Front(opts, own), p, out, q, Back(opts, own), own, cur, s, n);
    PrecedesMore(a, [o] + b, s, own);
    Associates(a, [o], b);
    FrontHolds(opts, s, own, n);
    NoneOf(p, s, n);
    ValuesInOut(b, own, own, n);
    After(TrimEach(Values(opts, s, n)), Values(out, s, n), if cur == s then TrimEach(Values(b, own, n)) else []);
  }

  lemma After(x: seq<string>, y: seq<string>, z: seq<string>)
    ensures x + (TrimEach([]) + y + z + TrimEach([])) == x + y + z
  {
  }

  // Section s is first seen before section own.
  predicate Precedes(opts: seq<UnitOption>, s: string, own: string) {
    opts != [] && opts[0].section != own && (opts[0].section == s || Precedes(opts[1..], s, own))
  }

  lemma {:induction false} PrecedesMore(a: seq<UnitOption>, b: seq<UnitOption>, s: string, own: string)
    requires Precedes(a, s, own)
    ensures Precedes(a + b, s, own)
  {
    assert (a + b)[0] == a[0] && (a + b)[1..] == a[1..] + b;
    if a[0].section != s {
      PrecedesMore(a[1..], b, s, own);
    }
  }

  lemma {:induction false} PrecedesOut(opts: seq<UnitOption>, s: string, own: string, other: string)
    requires Precedes(opts, s, own) && other != s && other != own
    ensures Precedes(OutOfSection(opts, other), s, own)
  {
    if opts[0].section != s {
      PrecedesOut(opts[1..], s, own, other);
    }
    if opts[0].section != other {
      assert ([opts[0]] + OutOfSection(opts[1..], other))[1..] == OutOfSection(opts[1..], other);
    } else {
      assert [] + OutOfSection(opts[1..], other) == OutOfSection(opts[1..], other);
    }
  }

  // Then all of its options stand there.
  lemma {:induction false} FrontHolds(opts: seq<UnitOption>, s: string, own: string, n: string)
    requires Precedes(opts, s, own) && s != own
    ensures Values(Front(opts, own), s, n) == Values(opts, s, n) && Values(Back(opts, own), s, n) == []
    decreases |opts|
  {
    var t := opts[0].section;
    var rest := OutOfSection(opts[1..], t);
    OutOfSectionMembers(opts[1..], t);
    InSectionMembers(opts[1..], t);
    FrontMembers(rest, own);
    ValuesAppend(FirstBlock(opts), Front(rest, own), s, n);
    ValuesInOut(opts, t, s, n);
    assert [] + OutOfSection(opts[1..], t) == OutOfSection(opts[1..], t);
    if t == s {
      NoneOf(Front(rest, own), s, n);
      NoneOf(Back(rest, own), s, n);
    } else {
      PrecedesOut(opts[1..], s, own, t);
      FrontHolds(rest, s, own, n);
      NoneOf(FirstBlock(opts), s, n);
    }
  }

  // ---- What the second line of a value is.

  lemma TwoLines(a: string, b: string)
    ensures '\n' !in a ==> Split(a + "\n" + b, '\n') == [a] + Split(b, '\n')
  {
    assert a + "\n" + b == a + ['\n'] + b;
    SplitAppend(a, b, '\n');
    if '\n' !in a {
      SplitWhole(a, '\n');
    }
  }

  // A value whose first line does not go on leaves all others to the reader.
  lemma FirstLine(m: Mode, o: UnitOption, first: string, more: string)
    requires PrintableName(o.name) && o.value == first + "\n" + more && '\n' !in first && !EndsIn(first, '\\')
    ensures
      var p := if m.At? then Taken(m.section, o.name, first, first)
               else Taken(m.section, m.name, m.value + "\n" + FieldLines(o)[0], FieldLines(o)[0]);
      p.mode == At(m.section) && Feed(m, FieldLines(o)) == Onto(p.done, Feed(At(m.section), Split(more, '\n')))
  {
    TwoLines(first, more);
    HeadTail(first, Split(more, '\n'));
    FieldText(o);
    FeedField(m, o);
  }

  lemma FeedOne(m: Mode, line: string)
    ensures Feed(m, [line]) == Step(m, line)
  {
    assert [line][1..] == [];
    if Step(m, line).Some? {
      var p := Step(m, line).value;
      assert p.done + [] == p.done;
    }
  }

  // A section header: what follows in the section moves.
  lemma HeaderReads(o: UnitOption, first: string, section: string)
    requires PrintableName(o.name) && PrintableSection(section)
    requires o.value == first + "\n" + ("[" + section + "]") && '\n' !in first && !EndsIn(first, '\\')
    ensures ReadsTo(o, [o.(value := Trim(first))], section)
  {
    var header := "[" + section + "]";
    FirstLine(At(o.section), o, first, header);
    assert '\n' !in header;
    SplitWhole(header, '\n');
    ClassifyHeader(section);
    FeedOne(At(o.section), header);
    assert [o.(value := Trim(first))] + [] == [o.(value := Trim(first))];
  }

  // A setting: one more option of the section.
  lemma SettingReads(o: UnitOption, first: string, name: string, w: string)
    requires PrintableName(o.name) && PrintableSection(o.section) && PrintableName(name)
    requires o.value == first + "\n" + (name + "=" + w) && '\n' !in first && !EndsIn(first, '\\')
    requires '\n' !in w && !EndsIn(w, '\\')
    ensures ReadsTo(o, [o.(value := Trim(first))] + [UnitOption(o.section, name, Trim(w))], o.section)
  {
    var line := name + "=" + w;
    FirstLine(At(o.section), o, first, line);
    assert '\n' !in line;
    SplitWhole(line, '\n');
    ClassifySetting(name, w);
    FeedOne(At(o.section), line);
  }

  // A header and a setting: one more option of another section, and what follows goes there too.
  lemma ForeignReads(o: UnitOption, first: string, section: string, name: string, w: string)
    requires PrintableName(o.name) && PrintableSection(section) && PrintableName(name)
    requires o.value == first + "\n" + ("[" + section + "]" + "\n" + (name + "=" + w))
    requires '\n' !in first && !EndsIn(first, '\\') && '\n' !in w && !EndsIn(w, '\\')
    ensures ReadsTo(o, [o.(value := Trim(first))] + [UnitOption(section, name, Trim(w))], section)
  {
    var header, line := "[" + section + "]", name + "=" + w;
    FirstLine(At(o.section), o, first, header + "\n" + line);
    assert '\n' !in header && '\n' !in line;
    TwoLines(header, line);
    SplitWhole(line, '\n');
    ClassifyHeader(section);
    ClassifySetting(name, w);
    FeedAppend(At(o.section), [header], [line]);
    FeedOne(At(o.section), header);
    FeedOne(At(section), line);
    OntoTwice([], [], Feed(At(section), [line]));
  }

  // Garbage: no file with such a value anywhere can be read.
  lemma BreakFails(opts: seq<UnitOption>, o: UnitOption, first: string, second: string)
    requires Named(opts) && o in opts && o.value == first + "\n" + second
    requires '\n' !in first && '\n' !in second && !EndsIn(first, '\\')
    requires Classify(second).Garbage? || Classify(second).BadHeader?
    ensures Parse(Print(opts)) == None
  {
    ParsesByField(opts);
    FirstLine(At(o.section), o, first, second);
    SplitWhole(second, '\n');
    FeedOne(At(o.section), second);
    FieldParses(At(o.section), o);
  }

  // A value with a section header on its second line, in any file: the rest of its section moves there.
  lemma HeaderMoves(a: seq<UnitOption>, o: UnitOption, b: seq<UnitOption>, first: string, section: string)
    requires Named(a + [o] + b) && PrintableSection(section) && ComesBack(a + [o.(value := first)] + b)
    requires o.value == first + "\n" + ("[" + section + "]") && '\n' !in first && !EndsIn(first, '\\')
    ensures
      var opts, own := a + [o] + b, o.section;
      Parse(Print(opts)) == Some(
        TrimAll(Group(Front(opts, own)))
        + (TrimAll(InSection(a, own)) + [o.(value := Trim(first))] + TrimAll(Moved(InSection(b, own), section))
           + TrimAll(Group(Back(opts, own)))))
  {
    assert o in a + [o] + b;
    HeaderReads(o, first, section);
    OneOdd(a, o, o.(value := first), b, [o.(value := Trim(first))], section);
  }

  // ---- A value that ends in a backslash takes the next option of its section in.

  function Merged(o: UnitOption, p: UnitOption): UnitOption {
    o.(value := o.value + "\n" + (p.name + "=" + p.value))
  }

  lemma MergedFields(o: UnitOption, p: UnitOption)
    ensures FieldLines(Merged(o, p)) == FieldLines(o) + FieldLines(p)
  {
    var a, b := o.name + "=" + o.value, p.name + "=" + p.value;
    assert o.name + "=" + Merged(o, p).value == a + ['\n'] + b;
    SplitAppend(a, b, '\n');
  }

  lemma MergedBlock(x: seq<UnitOption>, o: UnitOption, p: UnitOption, y: seq<UnitOption>)
    ensures Lines(x + [o] + [p] + y) == Lines(x + [Merged(o, p)] + y)
  {
    LinesAppend(x + [o] + [p], y);
    LinesAppend(x + [o], [p]);
    LinesAppend(x, [o]);
    LinesAppend(x + [Merged(o, p)], y);
    LinesAppend(x, [Merged(o, p)]);
    LinesOne(o);
    LinesOne(p);
    LinesOne(Merged(o, p));
    MergedFields(o, p);
    Associates(Lines(x), FieldLines(o), FieldLines(p));
  }

  lemma SwallowedBlock(x: seq<UnitOption>, o: UnitOption, p: UnitOption, y: seq<UnitOption>, own: string)
    requires Named(x + [o] + [p] + y) && forall z :: z in x + [o] + [p] + y ==> z.section == own
    requires ComesBack(x + [Merged(o, p)] + y)
    ensures ReadBlock(own, x + [o] + [p] + y) == Some(TrimAll(x + [Merged(o, p)] + y))
  {
    var merged := x + [Merged(o, p)] + y;
    MergedMembers(x, o, p, y, own);
    MergedBlock(x, o, p, y);
    ReturningBlock(own, own, merged);
    assert Moved(merged, own) == merged;
  }

  // Two neighbours in a section of any file: they cannot be told from the one option that has the second in
  // its value, and if with that one the file comes back, the second is gone.
  lemma Swallowed(opts: seq<UnitOption>, x: seq<UnitOption>, o: UnitOption, p: UnitOption, y: seq<UnitOption>)
    requires Named(opts) && o.section == p.section && InSection(opts, o.section) == x + [o] + [p] + y
    requires ComesBack(x + [Merged(o, p)] + y)
    requires ComesBack(Front(opts, o.section)) && ComesBack(Back(opts, o.section))
    ensures
      var own := o.section;
      Parse(Print(opts)) == Some(TrimAll(Group(Front(opts, own)))
        + (TrimAll(x + [Merged(o, p)] + y) + TrimAll(Group(Back(opts, own)))))
  {
    var own := o.section;
    NamedParts(opts, own);
    InSectionMembers(opts, own);
    SwallowedBlock(x, o, p, y, own);
    AroundReads(opts, own);
    ReadByField(opts);
    ReadSection(opts, own);
  }

  lemma AroundReads(opts: seq<UnitOption>, own: string)
    requires Named(opts) && ComesBack(Front(opts, own)) && ComesBack(Back(opts, own))
    ensures ReadApart(Front(opts, own)) == Some(TrimAll(Group(Front(opts, own))))
    ensures ReadApart(Back(opts, own)) == Some(TrimAll(Group(Back(opts, own))))
  {
    NamedParts(opts, own);
    RoundTrip(Front(opts, own));
    RoundTrip(Back(opts, own));
    ReadByField(Front(opts, own));
    ReadByField(Back(opts, own));
  }

  lemma MergedMembers(x: seq<UnitOption>, o: UnitOption, p: UnitOption, y: seq<UnitOption>, own: string)
    requires Named(x + [o] + [p] + y) && forall z :: z in x + [o] + [p] + y ==> z.section == own
    ensures Named(x + [Merged(o, p)] + y) && PrintableSection(own)
    ensures forall z :: z in x + [Merged(o, p)] + y ==> z.section == own
  {
    assert o in x + [o] + [p] + y;
    forall z | z in x + [Merged(o, p)] + y
      ensures PrintableSection(z.section) && PrintableName(z.name) && z.section == own
    {
      assert z == Merged(o, p) || z in x + [o] + [p] + y;
    }
  }

  // ---- Values that do not lead into a section.

  // Neither is it in section s at the end, nor does it bring an option there.
  predicate LeadsTo(p: Progress, s: string) {
    p.mode.section == s || HasSection(p.done, s)
  }

  // The value brings no header of section s (or nothing after it).
  predicate KeepsOut(v: string, s: string) {
    match Feed(At(""), FieldLines(UnitOption("", "", v)))
    case None => true
    case Some(p) => s == "" || !LeadsTo(p, s)
  }

  lemma HasSectionAdds(a: seq<UnitOption>, b: seq<UnitOption>, s: string)
    ensures HasSection(a + b, s) <==> HasSection(a, s) || HasSection(b, s)
  {
    HasSectionMember(a, s);
    HasSectionMember(b, s);
    HasSectionMember(a + b, s);
    assert forall o :: o in a + b <==> o in a || o in b;
  }

  lemma HasSectionOne(o: UnitOption, s: string)
    ensures HasSection([o], s) <==> o.section == s
    ensures !HasSection([], s)
  {
    assert o.section == s ==> [o][0].section == s;
  }

  // From outside s it does not matter where.
  lemma StepOutside(a: Mode, b: Mode, line: string, s: string)
    requires Alike(a, b) && (a.section == s <==> b.section == s) && Step(a, line).Some? && Step(b, line).Some?
    ensures
      var p, q := Step(a, line).value, Step(b, line).value;
      && Alike(p.mode, q.mode) && (p.mode.section == s <==> q.mode.section == s)
      && (HasSection(p.done, s) <==> HasSection(q.done, s))
  {
    var p, q := Step(a, line).value, Step(b, line).value;
    if p.done != [] && q.done != [] {
      HasSectionOne(p.done[0], s);
      HasSectionOne(q.done[0], s);
      assert p.done == [p.done[0]] && q.done == [q.done[0]];
    }
  }

  lemma {:induction false} FeedOutside(a: Mode, b: Mode, lines: seq<string>, s: string)
    requires Alike(a, b) && (a.section == s <==> b.section == s) && Feed(a, lines).Some? && Feed(b, lines).Some?
    ensures
      var p, q := Feed(a, lines).value, Feed(b, lines).value;
      && (p.mode.section == s <==> q.mode.section == s) && (HasSection(p.done, s) <==> HasSection(q.done, s))
    decreases |lines|
  {
    if lines != [] {
      var p, q := Step(a, lines[0]).value, Step(b, lines[0]).value;
      StepOutside(a, b, lines[0], s);
      FeedOutside(p.mode, q.mode, lines[1..], s);
      HasSectionAdds(p.done, Feed(p.mode, lines[1..]).value.done, s);
      HasSectionAdds(q.done, Feed(q.mode, lines[1..]).value.done, s);
    }
  }

  lemma TakenOutside(section: string, name: string, value: string, line: string, s: string)
    requires section != s
    ensures !LeadsTo(Taken(section, name, value, line), s)
  {
    HasSectionOne(UnitOption(section, name, Trim(value)), s);
  }

  lemma FieldOutside(m: Mode, o: UnitOption, s: string)
    requires PrintableName(o.name) && KeepsOut(o.value, s) && m.section != s && s != ""
    requires Feed(m, FieldLines(o)).Some?
    ensures !LeadsTo(Feed(m, FieldLines(o)).value, s)
  {
    var bare, rest := UnitOption("", "", o.value), Split(o.value, '\n')[1..];
    FieldParses(m, o);
    FieldText(o);
    FieldText(bare);
    FeedField(m, o);
    FeedField(At(""), bare);
    var p, q := Step(m, FieldLines(o)[0]).value, Step(At(""), FieldLines(bare)[0]).value;
    StartsOutside(m, o, s);
    StartsOutside(At(""), bare, s);
    FeedOutside(p.mode, q.mode, rest, s);
    HasSectionAdds(p.done, Feed(p.mode, rest).value.done, s);
    HasSectionAdds(q.done, Feed(q.mode, rest).value.done, s);
  }

  lemma StartsOutside(m: Mode, o: UnitOption, s: string)
    requires PrintableName(o.name) && m.section != s
    ensures Step(m, FieldLines(o)[0]).Some? && !LeadsTo(Step(m, FieldLines(o)[0]).value, s)
    ensures Step(m, FieldLines(o)[0]).value.mode.At? <==> !EndsIn(Split(o.value, '\n')[0], '\\')
  {
    FieldText(o);
    var line, first := FieldLines(o)[0], Split(o.value, '\n')[0];
    if m.At? {
      TakenOutside(m.section, o.name, first, first, s);
    } else {
      TakenOutside(m.section, m.name, m.value + "\n" + line, line, s);
    }
  }

  lemma {:induction false} LinesOutside(m: Mode, opts: seq<UnitOption>, s: string)
    requires Named(opts) && (forall o :: o in opts ==> KeepsOut(o.value, s)) && m.section != s && s != ""
    requires Feed(m, Lines(opts)).Some?
    ensures !LeadsTo(Feed(m, Lines(opts)).value, s)
    decreases |opts|
  {
    if opts == [] {
      HasSectionOne(UnitOption("", "", ""), s);
    } else {
      var o, rest := opts[0], opts[1..];
      assert opts == [o] + rest && o in opts;
      FeedAppend(m, FieldLines(o), Lines(rest));
      FieldOutside(m, o, s);
      var p := Feed(m, FieldLines(o)).value;
      LinesOutside(p.mode, rest, s);
      HasSectionAdds(p.done, Feed(p.mode, Lines(rest)).value.done, s);
    }
  }

  lemma BlockOutside(section: string, block: seq<UnitOption>, s: string)
    requires Named(block) && (forall o :: o in block ==> KeepsOut(o.value, s)) && section != s && s != ""
    requires ReadBlock(section, block).Some?
    ensures !HasSection(ReadBlock(section, block).value, s)
  {
    FeedParses(At(section), Lines(block));
    LinesOutside(At(section), block, s);
    var p := Feed(At(section), Lines(block)).value;
    HasSectionAdds(p.done, Ended(p.mode), s);
    if p.mode.In? {
      HasSectionOne(Ended(p.mode)[0], s);
    } else {
      HasSectionOne(UnitOption("", "", ""), s);
    }
  }

  lemma {:induction false} FileOutside(opts: seq<UnitOption>, s: string)
    requires Named(opts) && (forall o :: o in opts ==> KeepsOut(o.value, s) && o.section != s) && s != ""
    requires ReadApart(opts).Some?
    ensures !HasSection(ReadApart(opts).value, s)
    decreases |opts|
  {
    if opts == [] {
      HasSectionOne(UnitOption("", "", ""), s);
    } else {
      var own, rest := opts[0].section, OutOfSection(opts[1..], opts[0].section);
      BlockOf(opts);
      InSectionMembers(opts[1..], own);
      OutOfSectionMembers(opts[1..], own);
      assert opts[0] in opts;
      BlockOutside(own, FirstBlock(opts), s);
      FileOutside(rest, s);
      HasSectionAdds(ReadBlock(own, FirstBlock(opts)).value, ReadApart(rest).value, s);
    }
  }

  // The sections around it, and the section itself as it was printed.
  lemma SectionInside(opts: seq<UnitOption>, own: string)
    requires Named(opts) && Parse(Print(opts)).Some? && PrintableSection(own) && own != ""
    requires ComesBack(InSection(opts, own))
    ensures
      var a, b, block := ReadApart(Front(opts, own)), ReadApart(Back(opts, own)), TrimAll(InSection(opts, own));
      a.Some? && b.Some? && Parse(Print(opts)).value == a.value + (block + b.value)
  {
    ReadByField(opts);
    ReadSection(opts, own);
    InSectionMembers(opts, own);
    ReturningBlock(own, own, InSection(opts, own));
    assert Moved(InSection(opts, own), own) == InSection(opts, own);
  }

  // If a section comes back and no other field leads into it, its options have their values, whatever else the
  // other fields hold.
  lemma SectionReturns(opts: seq<UnitOption>, own: string, n: string)
    requires Named(opts) && Parse(Print(opts)).Some? && PrintableSection(own) && own != ""
    requires ComesBack(InSection(opts, own))
    requires forall o :: o in opts && o.section != own ==> KeepsOut(o.value, own)
    ensures Values(Parse(Print(opts)).value, own, n) == TrimEach(Values(opts, own, n))
  {
    var front, back, block := Front(opts, own), Back(opts, own), InSection(opts, own);
    SectionInside(opts, own);
    FrontMembers(opts, own);
    FileOutside(front, own);
    FileOutside(back, own);
    ValuesInOut(opts, own, own, n);
    ValuesOfTrimAll(block, own, n);
    ValuesNeedSection(ReadApart(front).value, own, n);
    ValuesNeedSection(ReadApart(back).value, own, n);
    OnlyInner(ReadApart(front).value, TrimAll(block), ReadApart(back).value, own, n);
  }

  lemma OnlyInner(a: seq<UnitOption>, b: seq<UnitOption>, c: seq<UnitOption>, s: string, n: string)
    requires Values(a, s, n) == [] && Values(c, s, n) == []
    ensures Values(a + (b + c), s, n) == Values(b, s, n)
  {
    ValuesAppend(a, b + c, s, n);
    ValuesAppend(b, c, s, n);
    Inner(Values(b, s, n));
  }

  lemma Inner<T>(x: seq<T>)
    ensures [] + (x + []) == x
  {
  }

  lemma ReturningKeepsOut(v: string, last: bool, s: string)
    requires Returns(v, last)
    ensures KeepsOut(v, s)
  {
    var o := UnitOption("", "", v);
    ReturningRead(At(""), o, last);
    HasSectionMember(Feed(At(""), FieldLines(o)).value.done, s);
  }
}
