// The text form of unit files: String and NewFile of internal/unit/file.go, with the grammar that
// internal/unit/file_test.go and internal/testdata/provider/*.units fix.

module UnitText {
  import opened Strings
  import opened UnitFile

  // ---- Printing: sections in order of first appearance, a blank line between them.

  function InSection(opts: seq<UnitOption>, section: string): seq<UnitOption> {
    if opts == [] then []
    else (if opts[0].section == section then [opts[0]] else []) + InSection(opts[1..], section)
  }

  function OutOfSection(opts: seq<UnitOption>, section: string): (r: seq<UnitOption>)
    ensures |r| <= |opts|
  {
    if opts == [] then []
    else (if opts[0].section == section then [] else [opts[0]]) + OutOfSection(opts[1..], section)
  }

  function OptionLines(opts: seq<UnitOption>): string {
    if opts == [] then ""
    else opts[0].name + "=" + opts[0].value + "\n" + OptionLines(opts[1..])
  }

  function Print(opts: seq<UnitOption>): string
    decreases |opts|
  {
    if opts == [] then ""
    else
      var section := opts[0].section;
      var rest := OutOfSection(opts[1..], section);
      "[" + section + "]\n" + OptionLines([opts[0]] + InSection(opts[1..], section))
      + (if rest == [] then "" else "\n" + Print(rest))
  }

  // ---- Parsing, line by line.

  predicate EndsIn(s: string, c: char) {
    s != "" && s[|s| - 1] == c
  }

  // A value goes on over the following lines as long as its last line ends in a backslash.
  function TakeValue(line: string, rest: seq<string>): (r: (string, seq<string>))
    ensures |r.1| <= |rest|
    decreases |rest|
  {
    if Blank(line) then ("", rest)
    else if EndsIn(line, '\\') && rest != [] then
      var (value, after) := TakeValue(rest[0], rest[1..]);
      (line + "\n" + value, after)
    else (line, rest)
  }

  datatype Line = Skip | Header(name: string) | BadHeader | Setting(name: string, first: string) | Garbage

  function Classify(raw: string): Line {
    var line := TrimLeft(raw);
    if line == "" || line[0] == '#' || line[0] == ';' then Skip
    else if line[0] == '[' then
      var close := IndexOf(line, ']');
      if close == |line| || !Blank(line[close + 1..]) then BadHeader else Header(line[1..close])
    else
      var eq := IndexOf(line, '=');
      if eq == |line| then Garbage else Setting(Trim(line[..eq]), line[eq + 1..])
  }

  // None is a parse error. Before the first section header everything else is ignored.
  function ParseLines(lines: seq<string>, section: Option<string>): Option<seq<UnitOption>>
    decreases |lines|
  {
    if lines == [] then Some([])
    else
      var rest := lines[1..];
      match Classify(lines[0])
      case Skip => ParseLines(rest, section)
      case Header(name) => ParseLines(rest, Some(name))
      case BadHeader => None
      case Garbage => if section.None? then ParseLines(rest, section) else None
      case Setting(name, first) =>
        if section.None? then ParseLines(rest, section)
        else
          var (value, after) := TakeValue(first, rest);
          Before([UnitOption(section.value, name, Trim(value))], ParseLines(after, section))
  }

  function Parse(text: string): Option<seq<UnitOption>> {
    ParseLines(Split(text, '\n'), None)
  }

  // ---- What can be written on a line.

  predicate PrintableSection(s: string) {
    '\n' !in s && ']' !in s
  }

  predicate PrintableName(n: string) {
    && '\n' !in n && '=' !in n && Tight(n)
    && (n != "" ==> n[0] != '#' && n[0] != ';' && n[0] != '[')
  }

  // Sections and names as the parser delivers them (ParsedNames) and as CreatePod writes them.
  predicate Named(opts: seq<UnitOption>) {
    forall o :: o in opts ==> PrintableSection(o.section) && PrintableName(o.name)
  }

  // ---- What comes back.

  function Trimmed(o: UnitOption): UnitOption {
    o.(value := Trim(o.value))
  }

  function TrimAll(opts: seq<UnitOption>): seq<UnitOption> {
    seq(|opts|, i requires 0 <= i < |opts| => Trimmed(opts[i]))
  }

  // Stable grouping by first-seen section.
  function Group(opts: seq<UnitOption>): seq<UnitOption>
    decreases |opts|
  {
    if opts == [] then []
    else
      [opts[0]] + InSection(opts[1..], opts[0].section) + Group(OutOfSection(opts[1..], opts[0].section))
  }

  // ---- Which values survive the text.

  predicate AllBlank(lines: seq<string>) {
    forall i :: 0 <= i < |lines| ==> Blank(lines[i])
  }

  // The lines of a value: it goes on while its lines end in a backslash; when it stops, only blank lines
  // may be left. If even its last line goes on, a blank line must follow, which is so for the last
  // option of a section.
  predicate Ends(lines: seq<string>, last: bool)
    requires lines != []
  {
    if !EndsIn(lines[0], '\\') then AllBlank(lines[1..])
    else if |lines| == 1 then last
    else Ends(lines[1..], last)
  }

  predicate Returns(v: string, last: bool) {
    Ends(Split(v, '\n'), last)
  }

  // Every value returns, given which options are the last of their section.
  predicate ComesBack(opts: seq<UnitOption>) {
    opts == []
    || (Returns(opts[0].value, !HasSection(opts[1..], opts[0].section)) && ComesBack(opts[1..]))
  }

  lemma SingleLineReturns(v: string, last: bool)
    requires '\n' !in v
    ensures Returns(v, last) <==> last || !EndsIn(v, '\\')
  {
    SplitWhole(v, '\n');
  }

  lemma EndsInBackslash(line: string)
    requires EndsIn(line, '\\')
    ensures !Blank(line)
  {
    assert !IsSpace(line[|line| - 1]);
  }

  // One is the other with blanks at the end.
  predicate UpToTail(a: string, b: string) {
    || (|a| <= |b| && b[..|a|] == a && Blank(b[|a|..]))
    || (|b| <= |a| && a[..|b|] == b && Blank(a[|b|..]))
  }

  lemma TrimUpToTail(a: string, b: string)
    requires UpToTail(a, b)
    ensures Trim(a) == Trim(b)
  {
    if |a| <= |b| && b[..|a|] == a && Blank(b[|a|..]) {
      assert b == a + b[|a|..];
      TrimTail(a, b[|a|..]);
    } else {
      assert a == b + a[|b|..];
      TrimTail(b, a[|b|..]);
    }
  }

  lemma UpToTailPrefix(p: string, a: string, b: string)
    requires UpToTail(a, b)
    ensures UpToTail(p + a, p + b)
  {
    if |a| <= |b| && b[..|a|] == a && Blank(b[|a|..]) {
      assert (p + b)[..|p + a|] == p + a && (p + b)[|p + a|..] == b[|a|..];
    } else {
      assert (p + a)[..|p + b|] == p + b && (p + a)[|p + b|..] == a[|b|..];
    }
  }

  lemma {:induction false} JoinBlank(lines: seq<string>)
    ensures Blank(Join(lines, "\n")) <==> AllBlank(lines)
  {
    if |lines| > 1 {
      JoinBlank(lines[1..]);
      var first, rest := lines[0], Join(lines[1..], "\n");
      InkAppend(first + "\n", rest);
      InkAppend(first, "\n");
      InkBlank(first);
      InkBlank(rest);
      InkBlank(Join(lines, "\n"));
      assert Ink("\n") == 0;
      assert AllBlank(lines) <==> Blank(first) && AllBlank(lines[1..]) by {
        assert lines == [first] + lines[1..];
      }
    }
  }

  lemma {:induction false} SkipBlanks(lines: seq<string>, more: seq<string>, section: Option<string>)
    requires AllBlank(lines)
    ensures ParseLines(lines + more, section) == ParseLines(more, section)
  {
    if lines == [] {
      assert lines + more == more;
    } else {
      SkipBlanks(lines[1..], more, section);
      assert (lines + more)[0] == lines[0] && (lines + more)[1..] == lines[1..] + more;
      ClassifyBlank(lines[0]);
    }
  }

  lemma {:induction false} ClassifyBlank(line: string)
    requires Blank(line)
    ensures Classify(line) == Skip
  {
    if line != "" {
      ClassifyBlank(line[1..]);
    }
  }

  // What taking a value of these lines is to give.
  ghost predicate Takes(lines: seq<string>, more: seq<string>, section: Option<string>)
    requires lines != []
  {
    var (value, after) := TakeValue(lines[0], lines[1..] + more);
    UpToTail(value, Join(lines, "\n")) && ParseLines(after, section) == ParseLines(more, section)
  }

  lemma TakeStop(lines: seq<string>, more: seq<string>, section: Option<string>)
    requires lines != [] && !EndsIn(lines[0], '\\') && AllBlank(lines[1..])
    ensures Takes(lines, more, section)
  {
    JoinBlank(lines[1..]);
    JoinBlank(lines);
    SkipBlanks(lines[1..], more, section);
    if Blank(lines[0]) {
      assert lines == [lines[0]] + lines[1..];
    } else if |lines| > 1 {
      assert Join(lines, "\n")[|lines[0]|..] == "\n" + Join(lines[1..], "\n");
    }
  }

  lemma TakeLast(line: string, more: seq<string>, section: Option<string>)
    requires EndsIn(line, '\\') && more != [] && Blank(more[0])
    ensures Takes([line], more, section)
  {
    EndsInBackslash(line);
    assert [line][1..] + more == more;
    SkipBlanks([more[0]], more[1..], section);
    assert [more[0]] + more[1..] == more;
    assert (line + "\n" + "")[|line|..] == "\n";
  }

  // A value that ends is taken whole, and nothing after it but blank lines.
  lemma {:induction false} TakeEnds(lines: seq<string>, more: seq<string>, last: bool, section: Option<string>)
    requires lines != [] && more != [] && Ends(lines, last) && (last ==> Blank(more[0]))
    ensures Takes(lines, more, section)
  {
    if !EndsIn(lines[0], '\\') {
      TakeStop(lines, more, section);
    } else if |lines| == 1 {
      TakeLast(lines[0], more, section);
      assert lines == [lines[0]];
    } else {
      EndsInBackslash(lines[0]);
      var rest := lines[1..] + more;
      assert rest[0] == lines[1] && rest[1..] == lines[1..][1..] + more;
      TakeEnds(lines[1..], more, last, section);
      UpToTailPrefix(lines[0] + "\n", TakeValue(rest[0], rest[1..]).0, Join(lines[1..], "\n"));
    }
  }

  lemma {:induction false} TakeInk(line: string, rest: seq<string>)
    ensures Ink(TakeValue(line, rest).0) >= Ink(line)
    decreases |rest|
  {
    InkBlank(line);
    if !Blank(line) && EndsIn(line, '\\') && rest != [] {
      var value := TakeValue(rest[0], rest[1..]).0;
      InkAppend(line + "\n", value);
      InkAppend(line, "\n");
    }
  }

  // A value that does not end is cut short, or takes in what follows.
  lemma {:induction false} TakeNotEnds(lines: seq<string>, more: seq<string>, last: bool)
    requires lines != [] && more != [] && !Ends(lines, last) && (!last ==> !Blank(more[0]))
    ensures Ink(TakeValue(lines[0], lines[1..] + more).0) != Ink(Join(lines, "\n"))
  {
    var rest, tail := lines[1..] + more, Join(lines[1..], "\n");
    InkBlank(lines[0]);
    InkAppend(lines[0] + "\n", tail);
    InkAppend(lines[0], "\n");
    if !EndsIn(lines[0], '\\') {
      JoinBlank(lines[1..]);
      InkBlank(tail);
    } else {
      EndsInBackslash(lines[0]);
      assert rest != [];
      var value := TakeValue(rest[0], rest[1..]).0;
      InkAppend(lines[0] + "\n", value);
      if |lines| == 1 {
        assert rest == more;
        TakeInk(more[0], more[1..]);
        InkBlank(more[0]);
      } else {
        assert rest[0] == lines[1] && rest[1..] == lines[1..][1..] + more;
        TakeNotEnds(lines[1..], more, last);
      }
    }
  }

  // ---- Option lines and headers parse back.

  lemma {:induction false} SplitPrefix(a: string, v: string, sep: char)
    requires sep !in a
    ensures Split(a + v, sep) == [a + Split(v, sep)[0]] + Split(v, sep)[1..]
  {
    if a == "" {
      assert a + v == v && a + Split(v, sep)[0] == Split(v, sep)[0];
      assert Split(v, sep) == [Split(v, sep)[0]] + Split(v, sep)[1..];
    } else {
      SplitPrefix(a[1..], v, sep);
      assert a + v == [a[0]] + (a[1..] + v);
      SplitCons(a[0], a[1..] + v, sep);
      assert [a[0]] + (a[1..] + Split(v, sep)[0]) == a + Split(v, sep)[0];
    }
  }

  lemma ClassifySetting(name: string, first: string)
    requires PrintableName(name)
    ensures Classify(name + "=" + first) == Setting(name, first)
  {
    var line := name + ['='] + first;
    assert line == name + "=" + first;
    TrimFixed(name);
    assert line[0] == if name == "" then '=' else name[0];
    assert TrimLeft(line) == line;
    IndexOfFirst(name, '=', first);
    assert line[..|name|] == name && line[|name| + 1..] == first;
  }

  lemma ClassifyHeader(name: string)
    requires PrintableSection(name)
    ensures Classify("[" + name + "]") == Header(name)
  {
    var line := ['['] + name + [']'];
    assert line == "[" + name + "]";
    IndexOfFirst(['['] + name, ']', "");
    assert line == ['['] + name + [']'] + "";
    assert TrimLeft(line) == line;
    assert line[1..|name| + 1] == name;
  }

  // The lines of an option and what follows them.
  lemma OptionText(o: UnitOption, more: string)
    requires PrintableName(o.name)
    ensures
      var values := Split(o.value, '\n');
      Split(o.name + "=" + o.value + "\n" + more, '\n')
        == [o.name + "=" + values[0]] + (values[1..] + Split(more, '\n'))
  {
    var head, values := o.name + "=", Split(o.value, '\n');
    SplitPrefix(head, o.value, '\n');
    var text := head + o.value;
    assert text + "\n" + more == text + ['\n'] + more;
    SplitAppend(text, more, '\n');
    ConsAppend(head + values[0], values[1..], Split(more, '\n'));
  }

  lemma ConsAppend(line: string, a: seq<string>, b: seq<string>)
    ensures [line] + a + b == [line] + (a + b)
  {
  }

  lemma ParseOption(o: UnitOption, more: string)
    requires PrintableName(o.name)
    ensures
      var values := Split(o.value, '\n');
      var (value, after) := TakeValue(values[0], values[1..] + Split(more, '\n'));
      ParseLines(Split(o.name + "=" + o.value + "\n" + more, '\n'), Some(o.section))
      == Before([UnitOption(o.section, o.name, Trim(value))], ParseLines(after, Some(o.section)))
  {
    OptionText(o, more);
    var values := Split(o.value, '\n');
    ClassifySetting(o.name, values[0]);
    var lines := [o.name + "=" + values[0]] + (values[1..] + Split(more, '\n'));
    assert lines[1..] == values[1..] + Split(more, '\n');
  }

  lemma OptionReturns(o: UnitOption, more: string, last: bool)
    requires PrintableName(o.name) && Returns(o.value, last) && (last ==> Blank(Split(more, '\n')[0]))
    ensures ParseLines(Split(o.name + "=" + o.value + "\n" + more, '\n'), Some(o.section))
         == Before([Trimmed(o)], ParseLines(Split(more, '\n'), Some(o.section)))
  {
    ParseOption(o, more);
    var values := Split(o.value, '\n');
    TakeEnds(values, Split(more, '\n'), last, Some(o.section));
    JoinSplit(o.value, '\n');
    TrimUpToTail(TakeValue(values[0], values[1..] + Split(more, '\n')).0, o.value);
  }

  lemma OptionDiffers(o: UnitOption, more: string, last: bool)
    requires PrintableName(o.name) && !Returns(o.value, last) && (!last ==> !Blank(Split(more, '\n')[0]))
    ensures
      var parsed := ParseLines(Split(o.name + "=" + o.value + "\n" + more, '\n'), Some(o.section));
      parsed.Some? ==> parsed.value != [] && parsed.value[0] != Trimmed(o)
  {
    ParseOption(o, more);
    var values := Split(o.value, '\n');
    TakeNotEnds(values, Split(more, '\n'), last);
    JoinSplit(o.value, '\n');
    InkTrim(TakeValue(values[0], values[1..] + Split(more, '\n')).0);
    InkTrim(o.value);
  }

  lemma TrimAllAppend(a: seq<UnitOption>, b: seq<UnitOption>)
    ensures TrimAll(a + b) == TrimAll(a) + TrimAll(b)
  {
  }

  lemma OptionLinesMore(opts: seq<UnitOption>, tail: string)
    requires opts != []
    ensures OptionLines(opts) + tail == opts[0].name + "=" + opts[0].value + "\n" + (OptionLines(opts[1..]) + tail)
  {
  }

  // The line after an option's lines: another option, or a blank one after the last of a section.
  lemma NextLine(opts: seq<UnitOption>, tail: string)
    requires Named(opts) && (tail == "" || tail[0] == '\n')
    ensures Blank(Split(OptionLines(opts) + tail, '\n')[0]) <==> opts == []
  {
    if opts == [] {
      assert OptionLines(opts) + tail == tail;
    } else {
      assert opts[0] in opts;
      OptionLinesMore(opts, tail);
      OptionText(opts[0], OptionLines(opts[1..]) + tail);
      var line := opts[0].name + "=" + Split(opts[0].value, '\n')[0];
      assert line[|opts[0].name|] == '=';
    }
  }

  // Comes back as expected, or at least not with the expected options in front.
  predicate ReadsBack(good: bool, expected: seq<UnitOption>, parsed: Option<seq<UnitOption>>,
                      rest: Option<seq<UnitOption>>) {
    if good then parsed == Before(expected, rest) else parsed.None? || !(expected <= parsed.value)
  }

  lemma ReadsBackMore(o: UnitOption, good: bool, expected: seq<UnitOption>,
                      parsed: Option<seq<UnitOption>>, rest: Option<seq<UnitOption>>)
    requires ReadsBack(good, expected, parsed, rest)
    ensures ReadsBack(good, [o] + expected, Before([o], parsed), rest)
  {
    BeforeBefore([o], expected, rest);
    if parsed.Some? {
      ConsPrefix(o, expected, parsed.value);
    }
  }

  lemma ConsPrefix(o: UnitOption, a: seq<UnitOption>, b: seq<UnitOption>)
    ensures [o] + a <= [o] + b <==> a <= b
  {
    var x, y := [o] + a, [o] + b;
    if x <= y {
      assert a == x[1..] && x == y[..|x|] && y[..|x|][1..] == b[..|a|];
    }
  }

  // The options of one section: they come back one by one, or the first that does not is not there.
  lemma {:induction false} ParseBlock(opts: seq<UnitOption>, section: string, tail: string)
    requires Named(opts) && (forall o :: o in opts ==> o.section == section) && (tail == "" || tail[0] == '\n')
    ensures ReadsBack(ComesBack(opts), TrimAll(opts), ParseLines(Split(OptionLines(opts) + tail, '\n'), Some(section)),
                      ParseLines(Split(tail, '\n'), Some(section)))
  {
    if opts == [] {
      assert OptionLines(opts) + tail == tail;
      assert TrimAll(opts) == [];
      BeforeBefore<UnitOption>([], [], ParseLines(Split(tail, '\n'), Some(section)));
    } else {
      ParseBlock(opts[1..], section, tail);
      BlockHead(opts, section, tail);
    }
  }

  lemma RestOfSection(opts: seq<UnitOption>, section: string)
    requires opts != [] && forall o :: o in opts ==> o.section == section
    ensures HasSection(opts[1..], section) <==> opts[1..] != []
    ensures opts[0].section == section && TrimAll(opts) == [Trimmed(opts[0])] + TrimAll(opts[1..])
  {
    assert opts[0] in opts;
    if opts[1..] != [] {
      assert opts[1..][0] in opts;
    }
  }

  lemma BlockHead(opts: seq<UnitOption>, section: string, tail: string)
    requires Named(opts) && (forall o :: o in opts ==> o.section == section) && (tail == "" || tail[0] == '\n')
    requires opts != []
    requires ReadsBack(ComesBack(opts[1..]), TrimAll(opts[1..]),
                       ParseLines(Split(OptionLines(opts[1..]) + tail, '\n'), Some(section)),
                       ParseLines(Split(tail, '\n'), Some(section)))
    ensures ReadsBack(ComesBack(opts), TrimAll(opts), ParseLines(Split(OptionLines(opts) + tail, '\n'), Some(section)),
                      ParseLines(Split(tail, '\n'), Some(section)))
  {
    RestOfSection(opts, section);
    OptionLinesMore(opts, tail);
    NextLine(opts[1..], tail);
    assert PrintableName(opts[0].name);
    OptionThen(opts[0], OptionLines(opts[1..]) + tail, opts[1..] == [], ComesBack(opts[1..]), TrimAll(opts[1..]),
      ParseLines(Split(tail, '\n'), Some(section)));
  }

  // One option in front of text that reads back or does not.
  lemma OptionThen(o: UnitOption, more: string, last: bool, good: bool, expected: seq<UnitOption>,
                   rest: Option<seq<UnitOption>>)
    requires PrintableName(o.name) && (last <==> Blank(Split(more, '\n')[0]))
    requires ReadsBack(good, expected, ParseLines(Split(more, '\n'), Some(o.section)), rest)
    ensures ReadsBack(Returns(o.value, last) && good, [Trimmed(o)] + expected,
                      ParseLines(Split(o.name + "=" + o.value + "\n" + more, '\n'), Some(o.section)), rest)
  {
    if Returns(o.value, last) {
      OptionReturns(o, more, last);
      ReadsBackMore(Trimmed(o), good, expected, ParseLines(Split(more, '\n'), Some(o.section)), rest);
    } else {
      OptionDiffers(o, more, last);
    }
  }

  lemma ParseHeader(name: string, tail: string, section: Option<string>)
    requires PrintableSection(name)
    ensures ParseLines(Split("[" + name + "]\n" + tail, '\n'), section) == ParseLines(Split(tail, '\n'), Some(name))
  {
    var line := "[" + name + "]";
    assert "[" + name + "]\n" + tail == line + ['\n'] + tail;
    SplitAppend(line, tail, '\n');
    SplitWhole(line, '\n');
    ClassifyHeader(name);
    var lines := [line] + Split(tail, '\n');
    assert lines[0] == line && lines[1..] == Split(tail, '\n');
  }

  lemma ParseBlankLine(tail: string, section: Option<string>)
    ensures ParseLines(Split("\n" + tail, '\n'), section) == ParseLines(Split(tail, '\n'), section)
  {
    assert "\n" + tail == "" + ['\n'] + tail;
    SplitAppend("", tail, '\n');
    var lines := [""] + Split(tail, '\n');
    assert lines[1..] == Split(tail, '\n');
  }

  lemma {:induction false} InSectionMembers(opts: seq<UnitOption>, section: string)
    ensures forall o :: o in InSection(opts, section) <==> o in opts && o.section == section
  {
    if opts != [] {
      InSectionMembers(opts[1..], section);
    }
  }

  lemma {:induction false} ComesBackParts(opts: seq<UnitOption>, section: string)
    ensures ComesBack(opts) <==> ComesBack(InSection(opts, section)) && ComesBack(OutOfSection(opts, section))
  {
    if opts != [] {
      var o := opts[0];
      ComesBackParts(opts[1..], section);
      SectionInParts(opts[1..], section, o.section);
      var part := if o.section == section then InSection(opts[1..], section) else OutOfSection(opts[1..], section);
      assert ([o] + part)[1..] == part;
      assert [] + InSection(opts[1..], section) == InSection(opts[1..], section);
      assert [] + OutOfSection(opts[1..], section) == OutOfSection(opts[1..], section);
    }
  }

  lemma SectionInParts(opts: seq<UnitOption>, section: string, s: string)
    ensures HasSection(opts, s)
      <==> HasSection(if s == section then InSection(opts, section) else OutOfSection(opts, section), s)
  {
    var part := if s == section then InSection(opts, section) else OutOfSection(opts, section);
    InSectionMembers(opts, section);
    OutOfSectionMembers(opts, section);
    HasSectionMember(opts, s);
    HasSectionMember(part, s);
  }

  lemma HasSectionMember(opts: seq<UnitOption>, s: string)
    ensures HasSection(opts, s) <==> exists o :: o in opts && o.section == s
  {
  }

  lemma {:induction false} PrintParse(opts: seq<UnitOption>, section: Option<string>)
    requires Named(opts)
    ensures ParseLines(Split(Print(opts), '\n'), section) == Some(TrimAll(Group(opts))) <==> ComesBack(opts)
    decreases |opts|
  {
    if opts == [] {
      ParseNothing(section);
    } else {
      var name, rest := opts[0].section, OutOfSection(opts[1..], opts[0].section);
      BlockOf(opts);
      ParseFirstBlock(opts, section);
      if rest == [] {
        ParseNothing(Some(name));
      } else {
        ParseBlankLine(Print(rest), Some(name));
        PrintParse(rest, Some(name));
      }
      SameAfter(TrimAll(FirstBlock(opts)), TrimAll(Group(rest)), ParseLines(Split(Remaining(opts), '\n'), Some(name)));
    }
  }

  function FirstBlock(opts: seq<UnitOption>): seq<UnitOption>
    requires opts != []
  {
    [opts[0]] + InSection(opts[1..], opts[0].section)
  }

  // What Print writes after the first section.
  function Remaining(opts: seq<UnitOption>): string
    requires opts != []
  {
    var rest := OutOfSection(opts[1..], opts[0].section);
    if rest == [] then "" else "\n" + Print(rest)
  }

  lemma PrintHead(opts: seq<UnitOption>)
    requires opts != []
    ensures Print(opts) == "[" + opts[0].section + "]\n" + (OptionLines(FirstBlock(opts)) + Remaining(opts))
    ensures Remaining(opts) == "" || Remaining(opts)[0] == '\n'
  {
    var name, lines, tail := opts[0].section, OptionLines(FirstBlock(opts)), Remaining(opts);
    assert Print(opts) == "[" + name + "]\n" + lines + tail;
    HeadAndTail("[" + name + "]\n", lines, tail);
    NewlineFirst(Print(OutOfSection(opts[1..], name)));
  }

  lemma HeadAndTail(head: string, lines: string, tail: string)
    ensures head + lines + tail == head + (lines + tail)
  {
  }

  lemma NewlineFirst(text: string)
    ensures ("\n" + text)[0] == '\n'
  {
  }

  lemma ParseFirstBlock(opts: seq<UnitOption>, section: Option<string>)
    requires opts != [] && Named(opts)
    ensures ReadsBack(ComesBack(FirstBlock(opts)), TrimAll(FirstBlock(opts)),
                      ParseLines(Split(Print(opts), '\n'), section),
                      ParseLines(Split(Remaining(opts), '\n'), Some(opts[0].section)))
    ensures TrimAll(Group(opts)) == TrimAll(FirstBlock(opts)) + TrimAll(Group(OutOfSection(opts[1..], opts[0].section)))
  {
    var name, block, tail := opts[0].section, FirstBlock(opts), Remaining(opts);
    BlockOf(opts);
    PrintHead(opts);
    ParseHeader(name, OptionLines(block) + tail, section);
    ParseBlock(block, name, tail);
    TrimAllAppend(block, Group(OutOfSection(opts[1..], name)));
  }

  lemma BlockOf(opts: seq<UnitOption>)
    requires opts != [] && Named(opts)
    ensures
      var name, rest := opts[0].section, OutOfSection(opts[1..], opts[0].section);
      var block := [opts[0]] + InSection(opts[1..], name);
      && Named(block) && Named(rest) && PrintableSection(name) && (forall o :: o in block ==> o.section == name)
      && (ComesBack(opts) <==> ComesBack(block) && ComesBack(rest))
  {
    var name := opts[0].section;
    InSectionMembers(opts[1..], name);
    OutOfSectionMembers(opts[1..], name);
    ComesBackParts(opts, name);
    assert opts[0] in opts;
    assert [] + OutOfSection(opts[1..], name) == OutOfSection(opts[1..], name);
  }

  lemma SameAfter(a: seq<UnitOption>, b: seq<UnitOption>, parsed: Option<seq<UnitOption>>)
    ensures Before(a, parsed) == Some(a + b) <==> parsed == Some(b)
    ensures parsed.Some? ==> a <= Before(a, parsed).value
    ensures a <= a + b
  {
    if parsed.Some? && a + parsed.value == a + b {
      assert parsed.value == (a + parsed.value)[|a|..] && b == (a + b)[|a|..];
    }
  }

  lemma ParseNothing(section: Option<string>)
    ensures ParseLines(Split("", '\n'), section) == Some([])
    ensures TrimAll(Group([])) == []
  {
    assert Split("", '\n') == [""];
    assert ParseLines([""], section) == ParseLines([""][1..], section);
  }

  // ---- The round trip.

  // The printed options come back, grouped and trimmed, iff every value returns.
  lemma RoundTrip(opts: seq<UnitOption>)
    requires Named(opts)
    ensures Parse(Print(opts)) == Some(TrimAll(Group(opts))) <==> ComesBack(opts)
  {
    PrintParse(opts, None);
  }

  // An option whose value swallows the next one.
  predicate SwallowsAt(opts: seq<UnitOption>, i: nat)
    requires i < |opts|
  {
    EndsIn(opts[i].value, '\\') && HasSection(opts[i + 1..], opts[i].section)
  }

  lemma SwallowsFirst(opts: seq<UnitOption>)
    requires opts != []
    ensures (forall i :: 0 <= i < |opts| ==> !SwallowsAt(opts, i))
      <==> !SwallowsAt(opts, 0) && forall i :: 0 <= i < |opts[1..]| ==> !SwallowsAt(opts[1..], i)
  {
    forall i | 0 <= i < |opts[1..]|
      ensures SwallowsAt(opts[1..], i) == SwallowsAt(opts, i + 1)
    {
      assert opts[1..][i + 1..] == opts[i + 1 + 1..];
    }
    if exists i :: 0 <= i < |opts| && SwallowsAt(opts, i) {
      var i :| 0 <= i < |opts| && SwallowsAt(opts, i);
      if i > 0 {
        assert SwallowsAt(opts[1..], i - 1);
      }
    }
  }

  lemma {:induction false} ComesBackSingleLines(opts: seq<UnitOption>)
    requires forall i :: 0 <= i < |opts| ==> '\n' !in opts[i].value
    ensures ComesBack(opts) <==> forall i :: 0 <= i < |opts| ==> !SwallowsAt(opts, i)
  {
    if opts != [] {
      ComesBackSingleLines(opts[1..]);
      SingleLineReturns(opts[0].value, !HasSection(opts[1..], opts[0].section));
      SwallowsFirst(opts);
    }
  }

  // Of values on one line all come back, unless one ends in a backslash and its section goes on.
  lemma RoundTripSingleLines(opts: seq<UnitOption>)
    requires Named(opts) && forall i :: 0 <= i < |opts| ==> '\n' !in opts[i].value
    ensures Parse(Print(opts)) == Some(TrimAll(Group(opts))) <==> forall i :: 0 <= i < |opts| ==> !SwallowsAt(opts, i)
  {
    RoundTrip(opts);
    ComesBackSingleLines(opts);
  }

  lemma {:induction false} ValuesInOut(opts: seq<UnitOption>, section: string, s: string, n: string)
    ensures Values(InSection(opts, section), s, n) == if s == section then Values(opts, s, n) else []
    ensures Values(OutOfSection(opts, section), s, n) == if s == section then [] else Values(opts, s, n)
  {
    if opts != [] {
      var o := opts[0];
      ValuesInOut(opts[1..], section, s, n);
      ValuesAppend([o], InSection(opts[1..], section), s, n);
      ValuesAppend([o], OutOfSection(opts[1..], section), s, n);
      assert [o][1..] == [];
      assert [] + InSection(opts[1..], section) == InSection(opts[1..], section);
      assert [] + OutOfSection(opts[1..], section) == OutOfSection(opts[1..], section);
    }
  }

  // Grouping moves options between sections only: every section/name keeps its values in order.
  lemma {:induction false} ValuesOfGroup(opts: seq<UnitOption>, s: string, n: string)
    ensures Values(Group(opts), s, n) == Values(opts, s, n)
    decreases |opts|
  {
    if opts != [] {
      var o, rest := opts[0], opts[1..];
      var into, out := InSection(rest, o.section), OutOfSection(rest, o.section);
      ValuesOfGroup(out, s, n);
      ValuesAppend([o] + into, Group(out), s, n);
      ValuesAppend([o], into, s, n);
      ValuesAppend([o], rest, s, n);
      assert [o] + rest == opts;
      ValuesInOut(rest, o.section, s, n);
      assert [o][1..] == [];
    }
  }

  function TrimEach(values: seq<string>): seq<string> {
    seq(|values|, i requires 0 <= i < |values| => Trim(values[i]))
  }

  lemma {:induction false} ValuesOfTrimAll(opts: seq<UnitOption>, s: string, n: string)
    ensures Values(TrimAll(opts), s, n) == TrimEach(Values(opts, s, n))
  {
    if opts != [] {
      ValuesOfTrimAll(opts[1..], s, n);
      assert TrimAll(opts)[1..] == TrimAll(opts[1..]);
      assert TrimAll(opts)[0] == Trimmed(opts[0]);
    }
  }

  // Then the parsed file has, for every section and name, the printed values up to outer blanks.
  lemma RoundTripValues(opts: seq<UnitOption>, s: string, n: string)
    requires Named(opts) && ComesBack(opts)
    ensures Parse(Print(opts)).Some?
    ensures Values(Parse(Print(opts)).value, s, n) == TrimEach(Values(opts, s, n))
  {
    RoundTrip(opts);
    ValuesOfTrimAll(Group(opts), s, n);
    ValuesOfGroup(opts, s, n);
  }

  // ---- The second round changes nothing.

  lemma {:induction false} InSectionAppend(a: seq<UnitOption>, b: seq<UnitOption>, section: string)
    ensures InSection(a + b, section) == InSection(a, section) + InSection(b, section)
  {
    if a == [] {
      assert a + b == b;
    } else {
      assert (a + b)[0] == a[0] && (a + b)[1..] == a[1..] + b;
      InSectionAppend(a[1..], b, section);
      var head := if a[0].section == section then [a[0]] else [];
      Associates(head, InSection(a[1..], section), InSection(b, section));
    }
  }

  lemma {:induction false} OutOfSectionAppend(a: seq<UnitOption>, b: seq<UnitOption>, section: string)
    ensures OutOfSection(a + b, section) == OutOfSection(a, section) + OutOfSection(b, section)
  {
    if a == [] {
      assert a + b == b;
    } else {
      assert (a + b)[0] == a[0] && (a + b)[1..] == a[1..] + b;
      OutOfSectionAppend(a[1..], b, section);
      var head := if a[0].section == section then [] else [a[0]];
      Associates(head, OutOfSection(a[1..], section), OutOfSection(b, section));
    }
  }

  lemma {:induction false} InOutPure(opts: seq<UnitOption>, section: string)
    ensures (forall o :: o in opts ==> o.section == section)
      ==> InSection(opts, section) == opts && OutOfSection(opts, section) == []
    ensures (forall o :: o in opts ==> o.section != section)
      ==> InSection(opts, section) == [] && OutOfSection(opts, section) == opts
  {
    if opts != [] {
      var o, rest := opts[0], opts[1..];
      InOutPure(rest, section);
      assert opts == [o] + rest && o in opts;
      assert forall p :: p in rest ==> p in opts;
    }
  }

  lemma {:induction false} GroupMembers(opts: seq<UnitOption>)
    ensures forall o :: o in Group(opts) <==> o in opts
    decreases |opts|
  {
    if opts != [] {
      var out := OutOfSection(opts[1..], opts[0].section);
      InSectionMembers(opts[1..], opts[0].section);
      OutOfSectionMembers(opts[1..], opts[0].section);
      GroupMembers(out);
    }
  }

  lemma {:induction false} OutOfSectionMembers(opts: seq<UnitOption>, section: string)
    ensures forall o :: o in OutOfSection(opts, section) <==> o in opts && o.section != section
  {
    if opts != [] {
      OutOfSectionMembers(opts[1..], section);
    }
  }

  // A list that starts with all of its first section.
  lemma GroupLed(o: UnitOption, into: seq<UnitOption>, rest: seq<UnitOption>)
    requires forall p :: p in into ==> p.section == o.section
    requires forall p :: p in rest ==> p.section != o.section
    ensures Group([o] + (into + rest)) == [o] + into + Group(rest)
  {
    var s := o.section;
    InOutPure(into, s);
    InOutPure(rest, s);
    InSectionAppend(into, rest, s);
    OutOfSectionAppend(into, rest, s);
    assert into + [] == into && [] + rest == rest;
    assert ([o] + (into + rest))[1..] == into + rest;
  }

  lemma GroupParts(opts: seq<UnitOption>)
    requires opts != []
    ensures forall p :: p in InSection(opts[1..], opts[0].section) ==> p.section == opts[0].section
    ensures forall p :: p in Group(OutOfSection(opts[1..], opts[0].section)) ==> p.section != opts[0].section
    ensures Group(opts)
      == [opts[0]] + InSection(opts[1..], opts[0].section) + Group(OutOfSection(opts[1..], opts[0].section))
  {
    InSectionMembers(opts[1..], opts[0].section);
    OutOfSectionMembers(opts[1..], opts[0].section);
    GroupMembers(OutOfSection(opts[1..], opts[0].section));
  }

  lemma GroupFixed(o: UnitOption, into: seq<UnitOption>, rest: seq<UnitOption>, g: seq<UnitOption>)
    requires g == [o] + into + rest && Group(rest) == rest
    requires forall p :: p in into ==> p.section == o.section
    requires forall p :: p in rest ==> p.section != o.section
    ensures Group(g) == g
  {
    GroupLed(o, into, rest);
    Associates([o], into, rest);
  }

  lemma {:induction false} GroupIdempotent(opts: seq<UnitOption>)
    ensures Group(Group(opts)) == Group(opts)
    decreases |opts|
  {
    if opts != [] {
      var s := opts[0].section;
      var out := OutOfSection(opts[1..], s);
      GroupIdempotent(out);
      GroupParts(opts);
      GroupFixed(opts[0], InSection(opts[1..], s), Group(out), Group(opts));
    }
  }

  lemma {:induction false} TrimAllInOut(opts: seq<UnitOption>, section: string)
    ensures InSection(TrimAll(opts), section) == TrimAll(InSection(opts, section))
    ensures OutOfSection(TrimAll(opts), section) == TrimAll(OutOfSection(opts, section))
  {
    if opts != [] {
      TrimAllInOut(opts[1..], section);
      var into, out := InSection(opts[1..], section), OutOfSection(opts[1..], section);
      assert TrimAll(opts)[1..] == TrimAll(opts[1..]) && TrimAll(opts)[0] == Trimmed(opts[0]);
      TrimAllAppend([opts[0]], into);
      TrimAllAppend([opts[0]], out);
      assert TrimAll([opts[0]]) == [Trimmed(opts[0])];
      assert [] + TrimAll(out) == TrimAll(out) && [] + out == out;
      assert [] + TrimAll(into) == TrimAll(into) && [] + into == into;
    }
  }

  lemma {:induction false} GroupTrimAll(opts: seq<UnitOption>)
    ensures Group(TrimAll(opts)) == TrimAll(Group(opts))
    decreases |opts|
  {
    if opts != [] {
      var o, s := opts[0], opts[0].section;
      var into, out := InSection(opts[1..], s), OutOfSection(opts[1..], s);
      assert TrimAll(opts)[0] == Trimmed(o) && TrimAll(opts)[1..] == TrimAll(opts[1..]);
      TrimAllInOut(opts[1..], s);
      GroupTrimAll(out);
      TrimAllAppend([o] + into, Group(out));
      TrimAllAppend([o], into);
    }
  }

  lemma ComesBackApart(a: seq<UnitOption>, b: seq<UnitOption>, section: string)
    requires (forall o :: o in a ==> o.section == section) && (forall o :: o in b ==> o.section != section)
    ensures ComesBack(a + b) <==> ComesBack(a) && ComesBack(b)
  {
    ComesBackParts(a + b, section);
    InSectionAppend(a, b, section);
    OutOfSectionAppend(a, b, section);
    InOutPure(a, section);
    InOutPure(b, section);
    assert a + [] == a && [] + b == b;
  }

  lemma {:induction false} ComesBackGroup(opts: seq<UnitOption>)
    ensures ComesBack(Group(opts)) <==> ComesBack(opts)
    decreases |opts|
  {
    if opts != [] {
      var s := opts[0].section;
      var into, out := InSection(opts[1..], s), OutOfSection(opts[1..], s);
      ComesBackGroup(out);
      GroupParts(opts);
      ComesBackApart([opts[0]] + into, Group(out), s);
      ComesBackParts(opts, s);
      assert [] + out == out;
    }
  }

  // What came back prints and parses to itself iff its values return.
  lemma RoundTripFixpoint(opts: seq<UnitOption>)
    requires Named(opts)
    ensures
      var once := TrimAll(Group(opts));
      Parse(Print(once)) == Some(once) <==> ComesBack(TrimAll(opts))
  {
    var once := TrimAll(Group(opts));
    GroupMembers(opts);
    assert Named(once);
    RoundTrip(once);
    GroupTrimAll(Group(opts));
    GroupIdempotent(opts);
    forall i | 0 <= i < |once|
      ensures Trimmed(once[i]) == once[i]
    {
      TrimIdempotent(Group(opts)[i].value);
    }
    assert TrimAll(once) == once;
    GroupTrimAll(opts);
    ComesBackGroup(TrimAll(opts));
  }

  // ---- What the parser delivers can be written.

  predicate NoBreaks(lines: seq<string>) {
    forall i :: 0 <= i < |lines| ==> '\n' !in lines[i]
  }

  lemma {:induction false} IndexOfAbsent(s: string, c: char)
    ensures c !in s[..IndexOf(s, c)]
  {
    if s != "" && s[0] != c {
      IndexOfAbsent(s[1..], c);
      assert s[..IndexOf(s, c)] == [s[0]] + s[1..][..IndexOf(s[1..], c)];
    }
  }

  lemma NameOfLine(line: string)
    requires line != "" && !IsSpace(line[0]) && line[0] != '#' && line[0] != ';' && line[0] != '[' && '\n' !in line
    ensures PrintableName(Trim(line[..IndexOf(line, '=')]))
  {
    var name := line[..IndexOf(line, '=')];
    IndexOfAbsent(line, '=');
    TrimTight(name);
    TrimRightEnds(name);
    if name != "" {
      assert name[0] == line[0] && TrimLeft(name) == name;
    }
  }

  lemma ClassifyNamed(raw: string)
    requires '\n' !in raw
    ensures Classify(raw).Header? ==> PrintableSection(Classify(raw).name)
    ensures Classify(raw).Setting? ==> PrintableName(Classify(raw).name)
  {
    var line := TrimLeft(raw);
    TrimLeftEnds(raw);
    if line != "" && line[0] != '#' && line[0] != ';' {
      if line[0] == '[' {
        IndexOfAbsent(line, ']');
      } else {
        NameOfLine(line);
      }
    }
  }

  lemma {:induction false} TakeRest(line: string, rest: seq<string>)
    requires NoBreaks(rest)
    ensures NoBreaks(TakeValue(line, rest).1)
    decreases |rest|
  {
    if !Blank(line) && EndsIn(line, '\\') && rest != [] {
      TakeRest(rest[0], rest[1..]);
    }
  }

  lemma {:induction false} ParsedLinesNamed(lines: seq<string>, section: Option<string>)
    requires NoBreaks(lines) && (section.Some? ==> PrintableSection(section.value))
    ensures ParseLines(lines, section).Some? ==> Named(ParseLines(lines, section).value)
    decreases |lines|
  {
    if lines != [] {
      var rest := lines[1..];
      ClassifyNamed(lines[0]);
      match Classify(lines[0])
      case Header(name) => ParsedLinesNamed(rest, Some(name));
      case Setting(_, first) =>
        TakeRest(first, rest);
        ParsedLinesNamed(TakeValue(first, rest).1, section);
        ParsedLinesNamed(rest, section);
      case _ => ParsedLinesNamed(rest, section);
    }
  }

  lemma ParsedNamed(text: string)
    ensures Parse(text).Some? ==> Named(Parse(text).value)
  {
    SplitPieces(text, '\n');
    ParsedLinesNamed(Split(text, '\n'), None);
  }
}
