// Printed files read field by field: what each value contributes to the file that is read back, where it
// stands, the lines after its own end included.

module ByField {
  import opened Strings
  import opened UnitFile
  import opened UnitText
  import opened Shipped

  // Between two options of a section, or within a value that goes on; value are its lines so far.
  datatype Mode = At(section: string) | In(section: string, name: string, value: string)

  // The options read so far, and where that leaves the reader.
  datatype Progress = Progress(done: seq<UnitOption>, mode: Mode)

  // What a blank line, or the end of the file, brings to an end.
  function Ended(m: Mode): seq<UnitOption> {
    match m
    case At(_) => []
    case In(section, name, value) => [UnitOption(section, name, Trim(value))]
  }

  // A value whose last line so far is this one.
  function Taken(section: string, name: string, value: string, line: string): Progress {
    if EndsIn(line, '\\') then Progress([], In(section, name, value))
    else Progress([UnitOption(section, name, Trim(value))], At(section))
  }

  function Step(m: Mode, line: string): Option<Progress> {
    match m
    case In(section, name, value) => Some(Taken(section, name, value + "\n" + line, line))
    case At(section) =>
      match Classify(line)
      case Skip => Some(Progress([], m))
      case Header(name) => Some(Progress([], At(name)))
      case BadHeader => None
      case Garbage => None
      case Setting(name, first) => Some(Taken(section, name, first, first))
  }

  function Onto(done: seq<UnitOption>, r: Option<Progress>): Option<Progress> {
    match r
    case None => None
    case Some(p) => Some(Progress(done + p.done, p.mode))
  }

  function Feed(m: Mode, lines: seq<string>): Option<Progress>
    decreases |lines|
  {
    if lines == [] then Some(Progress([], m))
    else
      match Step(m, lines[0])
      case None => None
      case Some(p) => Onto(p.done, Feed(p.mode, lines[1..]))
  }

  function Finish(r: Option<Progress>): Option<seq<UnitOption>> {
    match r
    case None => None
    case Some(p) => Some(p.done + Ended(p.mode))
  }

  lemma OntoTwice(a: seq<UnitOption>, b: seq<UnitOption>, r: Option<Progress>)
    ensures Onto(a, Onto(b, r)) == Onto(a + b, r) && Onto([], r) == r
    ensures Finish(Onto(a, r)) == Before(a, Finish(r))
  {
    if r.Some? {
      Associates(a, b, r.value.done);
      Associates(a, r.value.done, Ended(r.value.mode));
      assert [] + r.value.done == r.value.done;
    }
  }

  // ---- Line by line is how the parser reads.

  // The parser, from either mode.
  function Onward(m: Mode, lines: seq<string>): Option<seq<UnitOption>> {
    match m
    case At(section) => ParseLines(lines, Some(section))
    case In(section, name, value) =>
      if lines == [] then Some(Ended(m))
      else
        var (more, after) := TakeValue(lines[0], lines[1..]);
        Before([UnitOption(section, name, Trim(value + "\n" + more))], ParseLines(after, Some(section)))
  }

  lemma Continues<T>(a: seq<T>, b: seq<T>, c: seq<T>, d: seq<T>)
    ensures a + b + c + d == a + (b + c + d)
  {
  }

  lemma OnwardOpen(section: string, name: string, front: string, line: string, rest: seq<string>)
    requires EndsIn(line, '\\')
    ensures Onward(In(section, name, front + line), rest)
         == Before([UnitOption(section, name, Trim(front + TakeValue(line, rest).0))],
                   ParseLines(TakeValue(line, rest).1, Some(section)))
  {
    EndsInBackslash(line);
    if rest == [] {
      assert [UnitOption(section, name, Trim(front + line))] + [] == [UnitOption(section, name, Trim(front + line))];
    } else {
      var more := TakeValue(rest[0], rest[1..]).0;
      Continues(front, line, "\n", more);
    }
  }

  lemma OnwardClosed(front: string, line: string, rest: seq<string>)
    requires !EndsIn(line, '\\')
    ensures Trim(front + TakeValue(line, rest).0) == Trim(front + line) && TakeValue(line, rest).1 == rest
  {
    if Blank(line) {
      TrimTail(front, line);
      assert front + "" == front;
    }
  }

  // A value is taken from this line on.
  lemma OnwardTaken(section: string, name: string, front: string, line: string, rest: seq<string>)
    ensures
      var p, (value, after) := Taken(section, name, front + line, line), TakeValue(line, rest);
      Before(p.done, Onward(p.mode, rest))
      == Before([UnitOption(section, name, Trim(front + value))], ParseLines(after, Some(section)))
  {
    if EndsIn(line, '\\') {
      OnwardOpen(section, name, front, line, rest);
      BeforeBefore([], [], Onward(In(section, name, front + line), rest));
    } else {
      OnwardClosed(front, line, rest);
    }
  }

  lemma OnwardStep(m: Mode, line: string, rest: seq<string>)
    ensures Onward(m, [line] + rest) == match Step(m, line)
      case None => None
      case Some(p) => Before(p.done, Onward(p.mode, rest))
  {
    assert ([line] + rest)[1..] == rest;
    match m
    case In(section, name, value) =>
      OnwardTaken(section, name, value + "\n", line, rest);
    case At(section) =>
      match Classify(line)
      case Setting(name, first) =>
        OnwardTaken(section, name, "", first, rest);
        assert "" + first == first && "" + TakeValue(first, rest).0 == TakeValue(first, rest).0;
      case Header(name) => BeforeBefore([], [], ParseLines(rest, Some(name)));
      case _ => BeforeBefore([], [], ParseLines(rest, Some(section)));
  }

  lemma {:induction false} FeedParses(m: Mode, lines: seq<string>)
    ensures Onward(m, lines) == Finish(Feed(m, lines))
    decreases |lines|
  {
    if lines == [] {
      assert [] + Ended(m) == Ended(m);
    } else {
      OnwardStep(m, lines[0], lines[1..]);
      assert [lines[0]] + lines[1..] == lines;
      if Step(m, lines[0]).Some? {
        var p := Step(m, lines[0]).value;
        FeedParses(p.mode, lines[1..]);
        OntoTwice(p.done, [], Feed(p.mode, lines[1..]));
      }
    }
  }

  function Then(r: Option<Progress>, lines: seq<string>): Option<Progress> {
    match r
    case None => None
    case Some(p) => Onto(p.done, Feed(p.mode, lines))
  }

  lemma {:induction false} FeedAppend(m: Mode, a: seq<string>, b: seq<string>)
    ensures Feed(m, a + b) == Then(Feed(m, a), b)
    decreases |a|
  {
    if a == [] {
      assert a + b == b;
      OntoTwice([], [], Feed(m, b));
    } else {
      assert (a + b)[0] == a[0] && (a + b)[1..] == a[1..] + b;
      if Step(m, a[0]).Some? {
        var p := Step(m, a[0]).value;
        FeedAppend(p.mode, a[1..], b);
        if Feed(p.mode, a[1..]).Some? {
          var q := Feed(p.mode, a[1..]).value;
          OntoTwice(p.done, q.done, Feed(q.mode, b));
        }
      }
    }
  }

  // A blank line closes what is open, and then the section is as it was.
  lemma BlankEnds(m: Mode, more: seq<string>)
    ensures Feed(m, [""] + more) == Onto(Ended(m), Feed(At(m.section), more))
  {
    assert ([""] + more)[1..] == more;
    assert Classify("") == Skip;
    if m.In? {
      TrimTail(m.value, "\n" + "");
      assert m.value + ("\n" + "") == m.value + "\n" + "";
    }
  }

  // ---- The lines of options, and what they become.

  function FieldLines(o: UnitOption): seq<string> {
    Split(o.name + "=" + o.value, '\n')
  }

  function Lines(opts: seq<UnitOption>): seq<string> {
    if opts == [] then [] else FieldLines(opts[0]) + Lines(opts[1..])
  }

  lemma LinesOne(o: UnitOption)
    ensures Lines([o]) == FieldLines(o)
  {
    assert [o][1..] == [] && FieldLines(o) + [] == FieldLines(o);
  }

  lemma {:induction false} LinesAppend(a: seq<UnitOption>, b: seq<UnitOption>)
    ensures Lines(a + b) == Lines(a) + Lines(b)
  {
    if a == [] {
      assert a + b == b;
    } else {
      assert (a + b)[0] == a[0] && (a + b)[1..] == a[1..] + b;
      LinesAppend(a[1..], b);
      Associates(FieldLines(a[0]), Lines(a[1..]), Lines(b));
    }
  }

  lemma {:induction false} PrintedLines(opts: seq<UnitOption>, tail: string)
    ensures Split(OptionLines(opts) + tail, '\n') == Lines(opts) + Split(tail, '\n')
  {
    if opts == [] {
      assert OptionLines(opts) + tail == tail;
    } else {
      var text, more := opts[0].name + "=" + opts[0].value, OptionLines(opts[1..]) + tail;
      OptionLinesMore(opts, tail);
      assert text + "\n" + more == text + ['\n'] + more;
      SplitAppend(text, more, '\n');
      PrintedLines(opts[1..], tail);
      Associates(FieldLines(opts[0]), Lines(opts[1..]), Split(tail, '\n'));
    }
  }

  // What a block of options of a section is read as.
  function ReadBlock(section: string, block: seq<UnitOption>): Option<seq<UnitOption>> {
    ParseLines(Lines(block), Some(section))
  }

  function Joined(a: Option<seq<UnitOption>>, b: Option<seq<UnitOption>>): Option<seq<UnitOption>> {
    match a
    case None => None
    case Some(opts) => Before(opts, b)
  }

  lemma JoinedTwice(a: Option<seq<UnitOption>>, b: Option<seq<UnitOption>>, c: Option<seq<UnitOption>>)
    ensures Joined(a, Joined(b, c)) == Joined(Joined(a, b), c)
    ensures Joined(Some([]), c) == c && Joined(a, Some([])) == a
  {
    if a.Some? {
      assert a.value + [] == a.value;
      if b.Some? {
        BeforeBefore(a.value, b.value, c);
      }
    }
    BeforeBefore<UnitOption>([], [], c);
  }

  // Every section is read by itself, from its own header on, whatever stands in the values before.
  function ReadApart(opts: seq<UnitOption>): Option<seq<UnitOption>>
    decreases |opts|
  {
    if opts == [] then Some([])
    else
      Joined(ReadBlock(opts[0].section, FirstBlock(opts)), ReadApart(OutOfSection(opts[1..], opts[0].section)))
  }

  // A block and its blank line, with what is read from there in any section.
  lemma ReadOn(section: string, lines: seq<string>, more: seq<string>, r: Option<seq<UnitOption>>)
    requires forall s :: ParseLines(more, Some(s)) == r
    ensures ParseLines(lines + ([""] + more), Some(section)) == Joined(ParseLines(lines, Some(section)), r)
  {
    var m := At(section);
    FeedParses(m, lines + ([""] + more));
    FeedParses(m, lines);
    FeedAppend(m, lines, [""] + more);
    if Feed(m, lines).Some? {
      var p := Feed(m, lines).value;
      BlankEnds(p.mode, more);
      FeedParses(At(p.mode.section), more);
      OntoTwice(p.done, Ended(p.mode), Feed(At(p.mode.section), more));
      OntoTwice(p.done + Ended(p.mode), [], Feed(At(p.mode.section), more));
    }
  }

  lemma {:induction false} PrintApart(opts: seq<UnitOption>, section: Option<string>)
    requires Named(opts)
    ensures ParseLines(Split(Print(opts), '\n'), section) == ReadApart(opts)
    decreases |opts|
  {
    if opts == [] {
      ParseNothing(section);
    } else {
      var name, rest := opts[0].section, OutOfSection(opts[1..], opts[0].section);
      BlockOf(opts);
      PrintHead(opts);
      ParseHeader(name, OptionLines(FirstBlock(opts)) + Remaining(opts), section);
      PrintedLines(FirstBlock(opts), Remaining(opts));
      if rest == [] {
        ReadOn(name, Lines(FirstBlock(opts)), [], Some([]));
        assert Split("", '\n') == [""] + [];
      } else {
        forall s
          ensures ParseLines(Split(Print(rest), '\n'), Some(s)) == ReadApart(rest)
        {
          PrintApart(rest, Some(s));
        }
        NewlineSplit(Print(rest));
        ReadOn(name, Lines(FirstBlock(opts)), Split(Print(rest), '\n'), ReadApart(rest));
      }
    }
  }

  lemma NewlineSplit(text: string)
    ensures Split("\n" + text, '\n') == [""] + Split(text, '\n')
  {
    assert "\n" + text == "" + ['\n'] + text;
    SplitAppend("", text, '\n');
  }

  // Whatever the values hold.
  lemma ReadByField(opts: seq<UnitOption>)
    requires Named(opts)
    ensures Parse(Print(opts)) == ReadApart(opts)
  {
    PrintApart(opts, None);
  }

  // ---- One section, and what stands before and after it in the file.

  function Front(opts: seq<UnitOption>, own: string): seq<UnitOption>
    decreases |opts|
  {
    if opts == [] || opts[0].section == own then []
    else FirstBlock(opts) + Front(OutOfSection(opts[1..], opts[0].section), own)
  }

  function Back(opts: seq<UnitOption>, own: string): seq<UnitOption>
    decreases |opts|
  {
    if opts == [] then []
    else if opts[0].section == own then OutOfSection(opts[1..], own)
    else Back(OutOfSection(opts[1..], opts[0].section), own)
  }

  lemma {:induction false} FrontMembers(opts: seq<UnitOption>, own: string)
    ensures forall o :: o in Front(opts, own) ==> o in opts && o.section != own
    ensures forall o :: o in Back(opts, own) ==> o in opts && o.section != own
    decreases |opts|
  {
    if opts != [] {
      OutOfSectionMembers(opts[1..], opts[0].section);
      InSectionMembers(opts[1..], opts[0].section);
      if opts[0].section != own {
        FrontMembers(OutOfSection(opts[1..], opts[0].section), own);
      }
    }
  }

  // A list that starts with all of its first section.
  lemma ReadLed(x: seq<UnitOption>, rest: seq<UnitOption>, s: string)
    requires x != [] && (forall o :: o in x ==> o.section == s) && (forall o :: o in rest ==> o.section != s)
    ensures ReadApart(x + rest) == Joined(ReadBlock(s, x), ReadApart(rest))
  {
    LedParts(x, rest, s);
  }

  lemma LedParts(x: seq<UnitOption>, rest: seq<UnitOption>, s: string)
    requires x != [] && (forall o :: o in x ==> o.section == s) && (forall o :: o in rest ==> o.section != s)
    ensures (x + rest)[0].section == s && FirstBlock(x + rest) == x && OutOfSection((x + rest)[1..], s) == rest
  {
    assert x[0] in x && (x + rest)[0] == x[0] && (x + rest)[1..] == x[1..] + rest;
    InSectionAppend(x[1..], rest, s);
    OutOfSectionAppend(x[1..], rest, s);
    InOutPure(x[1..], s);
    InOutPure(rest, s);
    assert [x[0]] + (x[1..] + []) == x && [] + rest == rest;
  }

  lemma {:induction false} InOfOut(opts: seq<UnitOption>, s: string, own: string)
    requires s != own
    ensures InSection(OutOfSection(opts, s), own) == InSection(opts, own)
  {
    if opts != [] {
      InOfOut(opts[1..], s, own);
      var out := OutOfSection(opts[1..], s);
      assert ([opts[0]] + out)[1..] == out && [] + out == out;
      assert [] + InSection(opts[1..], own) == InSection(opts[1..], own);
    }
  }

  lemma {:induction false} ReadSection(opts: seq<UnitOption>, own: string)
    ensures ReadApart(opts)
         == Joined(ReadApart(Front(opts, own)),
                   Joined(ReadBlock(own, InSection(opts, own)), ReadApart(Back(opts, own))))
    decreases |opts|
  {
    if opts == [] {
      JoinedTwice(None, None, Some([]));
    } else if opts[0].section == own {
      JoinedTwice(None, None, Joined(ReadBlock(own, FirstBlock(opts)), ReadApart(Back(opts, own))));
    } else {
      ReadLater(opts, own);
      ReadSection(OutOfSection(opts[1..], opts[0].section), own);
    }
  }

  lemma ReadLater(opts: seq<UnitOption>, own: string)
    requires opts != [] && opts[0].section != own
    ensures
      var s, rest := opts[0].section, OutOfSection(opts[1..], opts[0].section);
      && InSection(opts, own) == InSection(rest, own) && Back(opts, own) == Back(rest, own)
      && (forall r :: Joined(ReadBlock(s, FirstBlock(opts)), Joined(ReadApart(Front(rest, own)), r))
                      == Joined(ReadApart(Front(opts, own)), r))
  {
    var s, rest := opts[0].section, OutOfSection(opts[1..], opts[0].section);
    InOfOut(opts[1..], s, own);
    assert [] + InSection(opts[1..], own) == InSection(opts[1..], own);
    InSectionMembers(opts[1..], s);
    OutOfSectionMembers(opts[1..], s);
    FrontMembers(rest, own);
    ReadLed(FirstBlock(opts), Front(rest, own), s);
    forall r: Option<seq<UnitOption>>
      ensures Joined(ReadBlock(s, FirstBlock(opts)), Joined(ReadApart(Front(rest, own)), r))
           == Joined(ReadApart(Front(opts, own)), r)
    {
      JoinedTwice(ReadBlock(s, FirstBlock(opts)), ReadApart(Front(rest, own)), r);
    }
  }

  // ---- One field: what is read before it, from it, and after it.

  function ValuesIn(r: Option<seq<UnitOption>>, s: string, n: string): seq<string> {
    match r
    case None => []
    case Some(opts) => Values(opts, s, n)
  }

  function DoneIn(r: Option<Progress>, s: string, n: string): seq<string> {
    match r
    case None => []
    case Some(p) => Values(p.done, s, n)
  }

  // Where the reader is after these options of a section.
  function ModeAfter(section: string, block: seq<UnitOption>): Mode {
    match Feed(At(section), Lines(block))
    case None => At(section)
    case Some(p) => p.mode
  }

  // The values of s/n that are complete by then, and those that come with the rest of the section.
  function DoneValues(section: string, block: seq<UnitOption>, s: string, n: string): seq<string> {
    DoneIn(Feed(At(section), Lines(block)), s, n)
  }

  function RestValues(m: Mode, block: seq<UnitOption>, s: string, n: string): seq<string> {
    ValuesIn(Finish(Feed(m, Lines(block))), s, n)
  }

  // Those that the sections before and after it bring.
  function FrontValues(opts: seq<UnitOption>, own: string, s: string, n: string): seq<string> {
    ValuesIn(ReadApart(Front(opts, own)), s, n)
  }

  function BackValues(opts: seq<UnitOption>, own: string, s: string, n: string): seq<string> {
    ValuesIn(ReadApart(Back(opts, own)), s, n)
  }

  lemma JoinedValues(a: Option<seq<UnitOption>>, b: Option<seq<UnitOption>>, s: string, n: string)
    requires Joined(a, b).Some?
    ensures a.Some? && b.Some? && ValuesIn(Joined(a, b), s, n) == ValuesIn(a, s, n) + ValuesIn(b, s, n)
  {
    ValuesAppend(a.value, b.value, s, n);
  }

  lemma BlockSplit(own: string, p: seq<UnitOption>, q: seq<UnitOption>, s: string, n: string)
    requires ReadBlock(own, p + q).Some?
    ensures Feed(At(own), Lines(p)).Some? && Feed(ModeAfter(own, p), Lines(q)).Some?
    ensures ValuesIn(ReadBlock(own, p + q), s, n)
         == DoneValues(own, p, s, n) + RestValues(ModeAfter(own, p), q, s, n)
  {
    var m := At(own);
    FeedParses(m, Lines(p + q));
    LinesAppend(p, q);
    FeedAppend(m, Lines(p), Lines(q));
    var first := Feed(m, Lines(p)).value;
    var rest := Feed(first.mode, Lines(q));
    OntoTwice(first.done, [], rest);
    ValuesAppend(first.done, Finish(rest).value, s, n);
  }

  // The values of an option in the file that is read, by section own and a cut in it.
  lemma AroundCut(a: seq<UnitOption>, b: seq<UnitOption>, own: string, s: string, n: string)
    requires Named(a + b) && Parse(Print(a + b)).Some?
    ensures Feed(At(own), Lines(InSection(a, own))).Some?
    ensures Feed(ModeAfter(own, InSection(a, own)), Lines(InSection(b, own))).Some?
    ensures Values(Parse(Print(a + b)).value, s, n)
         == FrontValues(a + b, own, s, n) + DoneValues(own, InSection(a, own), s, n)
            + (RestValues(ModeAfter(own, InSection(a, own)), InSection(b, own), s, n) + BackValues(a + b, own, s, n))
  {
    var opts := a + b;
    ReadByField(opts);
    ReadSection(opts, own);
    InSectionAppend(a, b, own);
    var front, back := ReadApart(Front(opts, own)), ReadApart(Back(opts, own));
    var block := ReadBlock(own, InSection(opts, own));
    JoinedValues(front, Joined(block, back), s, n);
    JoinedValues(block, back, s, n);
    BlockSplit(own, InSection(a, own), InSection(b, own), s, n);
    FourInARow(ValuesIn(front, s, n), DoneValues(own, InSection(a, own), s, n),
      RestValues(ModeAfter(own, InSection(a, own)), InSection(b, own), s, n), ValuesIn(back, s, n));
  }

  lemma FourInARow<T>(a: seq<T>, b: seq<T>, c: seq<T>, d: seq<T>)
    ensures a + ((b + c) + d) == a + b + (c + d)
  {
  }

  // The same around one field: what it completes where it stands.
  function FieldValues(m: Mode, o: UnitOption, s: string, n: string): seq<string> {
    DoneIn(Feed(m, FieldLines(o)), s, n)
  }

  lemma RestAround(m: Mode, o: UnitOption, q: seq<UnitOption>, s: string, n: string)
    requires Feed(m, Lines([o] + q)).Some?
    ensures Feed(m, FieldLines(o)).Some?
    ensures RestValues(m, [o] + q, s, n)
         == FieldValues(m, o, s, n) + RestValues(Feed(m, FieldLines(o)).value.mode, q, s, n)
  {
    LinesAppend([o], q);
    LinesOne(o);
    FeedAppend(m, FieldLines(o), Lines(q));
    var p := Feed(m, FieldLines(o)).value;
    var rest := Feed(p.mode, Lines(q));
    OntoTwice(p.done, [], rest);
    ValuesAppend(p.done, Finish(rest).value, s, n);
  }

  lemma PartsAround(a: seq<UnitOption>, x: seq<UnitOption>, b: seq<UnitOption>, own: string, s: string)
    requires forall o :: o in x ==> o.section == own
    ensures InSection(a + x + b, s) == InSection(a, s) + (if s == own then x else []) + InSection(b, s)
    ensures OutOfSection(a + x + b, s) == OutOfSection(a, s) + (if s == own then [] else x) + OutOfSection(b, s)
  {
    InSectionAppend(a + x, b, s);
    InSectionAppend(a, x, s);
    OutOfSectionAppend(a + x, b, s);
    OutOfSectionAppend(a, x, s);
    InOutPure(x, s);
  }

  // ---- What a field does to the reader depends little on where it stands.

  // Both within a value, or both between options.
  predicate Alike(a: Mode, b: Mode) {
    a.At? == b.At?
  }

  predicate AlikeAfter(a: Option<Progress>, b: Option<Progress>, sections: bool) {
    a.Some? == b.Some?
    && (a.Some? ==> Alike(a.value.mode, b.value.mode) && (sections ==> a.value.mode.section == b.value.mode.section))
  }

  lemma {:induction false} FeedAlike(a: Mode, b: Mode, lines: seq<string>)
    requires Alike(a, b)
    ensures AlikeAfter(Feed(a, lines), Feed(b, lines), a.section == b.section)
    decreases |lines|
  {
    if lines != [] && Step(a, lines[0]).Some? {
      FeedAlike(Step(a, lines[0]).value.mode, Step(b, lines[0]).value.mode, lines[1..]);
    }
  }

  lemma SettingEnds(name: string, first: string)
    ensures EndsIn(name + "=" + first, '\\') <==> EndsIn(first, '\\')
  {
    assert (name + "=" + first)[|name|] == '=';
  }

  lemma FieldText(o: UnitOption)
    requires PrintableName(o.name)
    ensures FieldLines(o) == [o.name + "=" + Split(o.value, '\n')[0]] + Split(o.value, '\n')[1..]
    ensures Classify(FieldLines(o)[0]) == Setting(o.name, Split(o.value, '\n')[0])
    ensures EndsIn(FieldLines(o)[0], '\\') <==> EndsIn(Split(o.value, '\n')[0], '\\')
    ensures FieldLines(o)[1..] == Split(o.value, '\n')[1..]
  {
    var first, rest := Split(o.value, '\n')[0], Split(o.value, '\n')[1..];
    SplitPrefix(o.name + "=", o.value, '\n');
    ClassifySetting(o.name, first);
    SettingEnds(o.name, first);
    HeadTail(o.name + "=" + first, rest);
  }

  lemma HeadTail<T>(first: T, rest: seq<T>)
    ensures ([first] + rest)[0] == first && ([first] + rest)[1..] == rest
  {
  }

  // Whether it can be read does not depend on it at all; where it leaves the reader, only on the section.
  lemma FieldAlike(a: Mode, b: Mode, o: UnitOption)
    requires PrintableName(o.name)
    ensures AlikeAfter(Feed(a, FieldLines(o)), Feed(b, FieldLines(o)), a.section == b.section)
  {
    FieldText(o);
    var line := FieldLines(o)[0];
    FeedAlike(Step(a, line).value.mode, Step(b, line).value.mode, FieldLines(o)[1..]);
  }

  // A value that can be read.
  predicate ValueParses(v: string) {
    Feed(At(""), FieldLines(UnitOption("", "", v))).Some?
  }

  lemma FieldParses(m: Mode, o: UnitOption)
    requires PrintableName(o.name)
    ensures Feed(m, FieldLines(o)).Some? <==> ValueParses(o.value)
  {
    var bare := UnitOption("", "", o.value);
    FieldText(o);
    FieldText(bare);
    var a, b := Step(m, FieldLines(o)[0]).value.mode, Step(At(""), FieldLines(bare)[0]).value.mode;
    FeedAlike(a, b, FieldLines(o)[1..]);
  }

  lemma {:induction false} BlockParses(m: Mode, opts: seq<UnitOption>)
    requires Named(opts)
    ensures Feed(m, Lines(opts)).Some? <==> forall o :: o in opts ==> ValueParses(o.value)
    decreases |opts|
  {
    if opts != [] {
      var o, rest := opts[0], opts[1..];
      assert opts == [o] + rest && o in opts;
      FeedAppend(m, FieldLines(o), Lines(rest));
      FieldParses(m, o);
      if Feed(m, FieldLines(o)).Some? {
        BlockParses(Feed(m, FieldLines(o)).value.mode, rest);
      }
    }
  }

  lemma {:induction false} ApartParses(opts: seq<UnitOption>)
    requires Named(opts)
    ensures ReadApart(opts).Some? <==> forall o :: o in opts ==> ValueParses(o.value)
    decreases |opts|
  {
    if opts != [] {
      var s := opts[0].section;
      var block, rest := FirstBlock(opts), OutOfSection(opts[1..], s);
      BlockOf(opts);
      InSectionMembers(opts[1..], s);
      OutOfSectionMembers(opts[1..], s);
      BlockParses(At(s), block);
      FeedParses(At(s), Lines(block));
      ApartParses(rest);
      assert forall o :: o in opts <==> o in block || o in rest;
    }
  }

  // A file can be read iff each of its values can, wherever it stands.
  lemma ParsesByField(opts: seq<UnitOption>)
    requires Named(opts)
    ensures Parse(Print(opts)).Some? <==> forall o :: o in opts ==> ValueParses(o.value)
  {
    ReadByField(opts);
    ApartParses(opts);
  }

  // ---- Fields that end by themselves.

  lemma {:induction false} FeedBlanks(section: string, lines: seq<string>)
    requires AllBlank(lines)
    ensures Feed(At(section), lines) == Some(Progress([], At(section)))
  {
    if lines != [] {
      ClassifyBlank(lines[0]);
      FeedBlanks(section, lines[1..]);
      OntoTwice([], [], Feed(At(section), lines[1..]));
    }
  }

  function MoreLines(rest: seq<string>): string {
    if rest == [] then "" else "\n" + Join(rest, "\n")
  }

  // The rest of a value whose lines so far end in this one.
  lemma {:induction false} TakenEnds(section: string, name: string, value: string, line: string, rest: seq<string>)
    requires Ends([line] + rest, false)
    ensures
      var p := Taken(section, name, value, line);
      Onto(p.done, Feed(p.mode, rest))
      == Some(Progress([UnitOption(section, name, Trim(value + MoreLines(rest)))], At(section)))
    decreases |rest|
  {
    assert ([line] + rest)[1..] == rest && ([line] + rest)[0] == line;
    if !EndsIn(line, '\\') {
      FeedBlanks(section, rest);
      JoinBlank(rest);
      TrimTail(value, MoreLines(rest));
      assert [UnitOption(section, name, Trim(value))] + [] == [UnitOption(section, name, Trim(value))];
    } else {
      assert rest == [rest[0]] + rest[1..];
      TakenEnds(section, name, value + "\n" + rest[0], rest[0], rest[1..]);
      OntoTwice([], [], Feed(In(section, name, value), rest));
      MoreLinesStep(value, rest);
    }
  }

  lemma MoreLinesStep(value: string, rest: seq<string>)
    requires rest != []
    ensures value + "\n" + rest[0] + MoreLines(rest[1..]) == value + MoreLines(rest)
  {
    var line, more := rest[0], MoreLines(rest[1..]);
    assert Join(rest, "\n") == line + more;
    assert value + "\n" + line + more == value + ("\n" + (line + more));
  }

  lemma FeedField(m: Mode, o: UnitOption)
    requires PrintableName(o.name)
    ensures
      var lines := Split(o.value, '\n');
      var p := if m.At? then Taken(m.section, o.name, lines[0], lines[0])
               else Taken(m.section, m.name, m.value + "\n" + FieldLines(o)[0], FieldLines(o)[0]);
      Feed(m, FieldLines(o)) == Onto(p.done, Feed(p.mode, lines[1..]))
  {
    FieldText(o);
  }

  lemma WholeValue(v: string)
    ensures Split(v, '\n')[0] + MoreLines(Split(v, '\n')[1..]) == v
  {
    var lines := Split(v, '\n');
    JoinSplit(v, '\n');
    assert lines[0] + MoreLines(lines[1..]) == Join(lines, "\n");
  }

  lemma CalmAt(section: string, o: UnitOption)
    requires PrintableName(o.name) && Returns(o.value, false)
    ensures Feed(At(section), FieldLines(o))
         == Some(Progress([UnitOption(section, o.name, Trim(o.value))], At(section)))
  {
    var lines := Split(o.value, '\n');
    FeedField(At(section), o);
    assert [lines[0]] + lines[1..] == lines;
    TakenEnds(section, o.name, lines[0], lines[0], lines[1..]);
    WholeValue(o.value);
  }

  lemma CalmIn(m: Mode, o: UnitOption)
    requires m.In? && PrintableName(o.name) && Returns(o.value, false)
    ensures Feed(m, FieldLines(o)).Some? && Feed(m, FieldLines(o)).value.mode == At(m.section)
    ensures
      var done := Feed(m, FieldLines(o)).value.done;
      |done| == 1 && done[0].section == m.section && done[0].name == m.name
  {
    var lines, line := Split(o.value, '\n'), FieldLines(o)[0];
    FeedField(m, o);
    FieldText(o);
    assert lines == [lines[0]] + lines[1..];
    EndsTail(lines[0], line, lines[1..]);
    TakenEnds(m.section, m.name, m.value + "\n" + line, line, lines[1..]);
  }

  // Such a field is one option: its own, or the end of the one that goes on into it.
  lemma CalmRead(m: Mode, o: UnitOption)
    requires PrintableName(o.name) && Returns(o.value, false)
    ensures Feed(m, FieldLines(o)).Some? && Feed(m, FieldLines(o)).value.mode == At(m.section)
    ensures
      var done, name := Feed(m, FieldLines(o)).value.done, if m.At? then o.name else m.name;
      |done| == 1 && done[0].section == m.section && done[0].name == name && (m.At? ==> done[0].value == Trim(o.value))
  {
    if m.At? {
      CalmAt(m.section, o);
    } else {
      CalmIn(m, o);
    }
  }

  lemma EndsTail(a: string, b: string, rest: seq<string>)
    requires EndsIn(a, '\\') == EndsIn(b, '\\') && Ends([a] + rest, false)
    ensures Ends([b] + rest, false)
  {
    assert ([a] + rest)[1..] == rest && ([b] + rest)[1..] == rest;
  }

  // The same options in another section.
  function Moved(opts: seq<UnitOption>, section: string): seq<UnitOption> {
    seq(|opts|, i requires 0 <= i < |opts| => opts[i].(section := section))
  }

  lemma MovedCons(opts: seq<UnitOption>, section: string)
    requires opts != []
    ensures Moved(opts, section)[0] == opts[0].(section := section)
    ensures Moved(opts, section)[1..] == Moved(opts[1..], section)
    ensures TrimAll(Moved(opts, section))
         == [UnitOption(section, opts[0].name, Trim(opts[0].value))] + TrimAll(Moved(opts[1..], section))
  {
  }

  lemma {:induction false} CalmBlock(section: string, opts: seq<UnitOption>)
    requires Named(opts) && forall o :: o in opts ==> Returns(o.value, false)
    ensures Feed(At(section), Lines(opts)) == Some(Progress(TrimAll(Moved(opts, section)), At(section)))
  {
    if opts != [] {
      var o := opts[0];
      assert o in opts;
      CalmAt(section, o);
      CalmBlock(section, opts[1..]);
      FeedAppend(At(section), FieldLines(o), Lines(opts[1..]));
      MovedCons(opts, section);
    }
  }

  // A whole block that comes back, read in any section.
  lemma ReturningBlock(section: string, own: string, block: seq<UnitOption>)
    requires Named(block) && ComesBack(block) && (forall o :: o in block ==> o.section == own)
    requires PrintableSection(section)
    ensures ReadBlock(section, block) == Some(TrimAll(Moved(block, section)))
  {
    var moved := Moved(block, section);
    MovedComesBack(block, own, section);
    MovedNamed(block, section);
    ParseBlock(moved, section, "");
    PrintedLines(moved, "");
    MovedLines(block, section);
    ReadOn(section, Lines(block), [], Some([]));
    assert Split("", '\n') == [""] + [];
    JoinedTwice(ReadBlock(section, block), None, None);
    assert TrimAll(moved) + [] == TrimAll(moved);
    ParseNothing(Some(section));
  }

  lemma MovedNamed(opts: seq<UnitOption>, section: string)
    requires Named(opts) && PrintableSection(section)
    ensures Named(Moved(opts, section)) && forall o :: o in Moved(opts, section) ==> o.section == section
  {
    forall o | o in Moved(opts, section)
      ensures PrintableSection(o.section) && PrintableName(o.name) && o.section == section
    {
      var i :| 0 <= i < |opts| && Moved(opts, section)[i] == o;
      assert opts[i] in opts;
    }
  }

  lemma {:induction false} MovedLines(opts: seq<UnitOption>, section: string)
    ensures Lines(Moved(opts, section)) == Lines(opts)
  {
    if opts != [] {
      MovedLines(opts[1..], section);
      MovedCons(opts, section);
    }
  }

  lemma {:induction false} MovedComesBack(opts: seq<UnitOption>, own: string, section: string)
    requires forall o :: o in opts ==> o.section == own
    ensures ComesBack(Moved(opts, section)) <==> ComesBack(opts)
  {
    if opts != [] {
      MovedCons(opts, section);
      MovedComesBack(opts[1..], own, section);
      RestOfSection(opts, own);
      assert HasSection(Moved(opts[1..], section), section) <==> opts[1..] != [] by {
        if opts[1..] != [] { assert Moved(opts[1..], section)[0].section == section; }
      }
    }
  }

  // ---- Values as packages ship them never lead to another section.

  predicate AllGoOn(lines: seq<string>) {
    forall i :: 0 <= i < |lines| ==> EndsIn(lines[i], '\\')
  }

  lemma {:induction false} ChainedGoOn(before: char, lines: seq<string>)
    requires lines != [] && Chained(before, lines) && before != '\\' && EndsIn(lines[|lines| - 1], '\\')
    ensures AllGoOn(lines)
    decreases |lines|
  {
    if |lines| > 1 {
      ChainedGoOn('\n', lines[1..]);
      assert lines == [lines[0]] + lines[1..];
    }
  }

  lemma {:induction false} FeedGoesOn(section: string, name: string, value: string, lines: seq<string>)
    requires AllGoOn(lines)
    ensures Feed(In(section, name, value), lines).Some? && Feed(In(section, name, value), lines).value.done == []
    ensures
      var m := Feed(In(section, name, value), lines).value.mode;
      m.In? && m.section == section && m.name == name
    decreases |lines|
  {
    if lines != [] {
      FeedGoesOn(section, name, value + "\n" + lines[0], lines[1..]);
    }
  }

  lemma ShippedGoesOn(v: string)
    requires Continued(v) && EndsIn(v, '\\')
    ensures AllGoOn(Split(v, '\n'))
  {
    FlowsChained(' ', v);
    LastLineEnds(v, '\\');
    ChainedGoOn(' ', Split(v, '\n'));
  }

  lemma GoOnParts(lines: seq<string>)
    requires lines != [] && AllGoOn(lines)
    ensures EndsIn(lines[0], '\\') && AllGoOn(lines[1..])
  {
  }

  lemma GoesOnText(o: UnitOption)
    requires PrintableName(o.name) && AllGoOn(Split(o.value, '\n'))
    ensures
      var lines := Split(o.value, '\n');
      EndsIn(lines[0], '\\') && EndsIn(FieldLines(o)[0], '\\') && AllGoOn(lines[1..])
  {
    GoOnParts(Split(o.value, '\n'));
    FieldText(o);
  }

  lemma OpenRead(m: Mode, o: UnitOption)
    requires PrintableName(o.name) && AllGoOn(Split(o.value, '\n'))
    ensures Feed(m, FieldLines(o)).Some? && Feed(m, FieldLines(o)).value.done == []
    ensures
      var after := Feed(m, FieldLines(o)).value.mode;
      after.In? && after.section == m.section && after.name == if m.At? then o.name else m.name
  {
    var lines := Split(o.value, '\n');
    GoesOnText(o);
    FeedField(m, o);
    var value := if m.At? then lines[0] else m.value + "\n" + FieldLines(o)[0];
    FeedGoesOn(m.section, if m.At? then o.name else m.name, value, lines[1..]);
  }

  lemma ShippedRead(m: Mode, o: UnitOption)
    requires PrintableName(o.name) && Continued(o.value)
    ensures Feed(m, FieldLines(o)).Some? && Feed(m, FieldLines(o)).value.mode.section == m.section
    ensures Feed(m, FieldLines(o)).value.mode.In? <==> EndsIn(o.value, '\\')
  {
    ContinuedReturns(o.value, false);
    if EndsIn(o.value, '\\') {
      ShippedGoesOn(o.value);
      OpenRead(m, o);
    } else {
      CalmRead(m, o);
    }
  }

  lemma {:induction false} EndsOrGoesOn(lines: seq<string>, last: bool)
    requires lines != [] && Ends(lines, last)
    ensures Ends(lines, false) || AllGoOn(lines)
  {
    if EndsIn(lines[0], '\\') && |lines| > 1 {
      EndsOrGoesOn(lines[1..], last);
      assert lines == [lines[0]] + lines[1..];
    }
  }

  // A value that returns is one option, which may be left open.
  lemma ReturningRead(m: Mode, o: UnitOption, last: bool)
    requires PrintableName(o.name) && Returns(o.value, last)
    ensures Feed(m, FieldLines(o)).Some? && Feed(m, FieldLines(o)).value.mode.section == m.section
    ensures forall p :: p in Feed(m, FieldLines(o)).value.done ==> p.section == m.section
  {
    EndsOrGoesOn(Split(o.value, '\n'), last);
    if Returns(o.value, false) {
      CalmRead(m, o);
    } else {
      OpenRead(m, o);
    }
  }

  lemma ReturningParses(v: string, last: bool)
    requires Returns(v, last)
    ensures ValueParses(v)
  {
    ReturningRead(At(""), UnitOption("", "", v), last);
  }

  // The last option of a block ends in a backslash, or before any option something is open.
  predicate LeavesOpen(m: Mode, opts: seq<UnitOption>) {
    if opts == [] then m.In? else EndsIn(opts[|opts| - 1].value, '\\')
  }

  lemma LeavesOpenCons(m: Mode, o: UnitOption, rest: seq<UnitOption>, after: Mode)
    requires after.In? <==> EndsIn(o.value, '\\')
    ensures LeavesOpen(m, [o] + rest) <==> LeavesOpen(after, rest)
  {
  }

  lemma {:induction false} ShippedBlock(m: Mode, opts: seq<UnitOption>)
    requires Delivered(opts)
    ensures Feed(m, Lines(opts)).Some? && Feed(m, Lines(opts)).value.mode.section == m.section
    ensures Feed(m, Lines(opts)).value.mode.In? <==> LeavesOpen(m, opts)
    decreases |opts|
  {
    if opts != [] {
      var o, rest := opts[0], opts[1..];
      assert o in opts && opts == [o] + rest;
      ShippedRead(m, o);
      var after := Feed(m, FieldLines(o)).value.mode;
      assert Delivered(rest);
      ShippedBlock(after, rest);
      LeavesOpenCons(m, o, rest, after);
      FeedAppend(m, FieldLines(o), Lines(rest));
    }
  }
}
