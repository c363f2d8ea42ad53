// The grammar of unit files as internal/unit/file_test.go:42-172 fixes it: what each kind of line is read as, and the
// files of its tests.

module Grammar {
  import opened Strings
  import opened UnitFile
  import opened UnitText

  // ---- What each kind of line is read as.

  // A blank line, or a comment.
  predicate SaysNothing(line: string) {
    TrimLeft(line) == "" || TrimLeft(line)[0] in ['#', ';']
  }

  predicate BeginsSection(line: string) {
    TrimLeft(line) != "" && TrimLeft(line)[0] == '['
  }

  // It is skipped wherever an option may begin; within a value that goes on it is part of the value (TakeEnds).
  lemma CommentSkipped(line: string, rest: seq<string>, section: Option<string>)
    requires SaysNothing(line)
    ensures ParseLines([line] + rest, section) == ParseLines(rest, section)
  {
    assert ([line] + rest)[1..] == rest;
  }

  // Before the first section header nothing is read.
  lemma {:induction false} HeadIgnored(head: seq<string>, rest: seq<string>)
    requires forall i :: 0 <= i < |head| ==> !BeginsSection(head[i])
    ensures ParseLines(head + rest, None) == ParseLines(rest, None)
  {
    if head == [] {
      assert head + rest == rest;
    } else {
      HeadIgnored(head[1..], rest);
      assert (head + rest)[1..] == head[1..] + rest;
    }
  }

  lemma HeaderRead(name: string, rest: seq<string>, section: Option<string>)
    requires PrintableSection(name)
    ensures ParseLines(["[" + name + "]"] + rest, section) == ParseLines(rest, Some(name))
  {
    ClassifyHeader(name);
    assert (["[" + name + "]"] + rest)[1..] == rest;
  }

  lemma NameFirst(name: string, after: string, value: string)
    requires PrintableName(name) && name != "" && Blank(after)
    ensures
      var line := name + after + "=" + value;
      && IndexOf(line, '=') == |name + after| && line[..|name + after|] == name + after
      && line[|name + after| + 1..] == value && Trim(name + after) == name
  {
    IndexOfFirst(name + after, '=', value);
    assert name + after + "=" + value == (name + after) + ['='] + value;
    TrimTail(name, after);
    TrimFixed(name);
  }

  lemma NameTrimmed(before: string, name: string, after: string, value: string)
    requires PrintableName(name) && name != "" && Blank(before) && Blank(after)
    ensures Classify(before + (name + after + "=" + value)) == Setting(name, value)
  {
    var line := name + after + "=" + value;
    assert line[0] == name[0];
    BlankBefore(before, line);
    NameFirst(name, after, value);
  }

  lemma {:induction false} BlankBefore(before: string, line: string)
    requires Blank(before) && line != "" && !IsSpace(line[0])
    ensures TrimLeft(before + line) == line
  {
    if before == "" {
      assert before + line == line;
    } else {
      assert (before + line)[1..] == before[1..] + line;
      BlankBefore(before[1..], line);
    }
  }

  // A setting on one line: blanks around name and value do not count, and any name will do.
  lemma SettingRead(before: string, name: string, after: string, value: string, rest: seq<string>, section: string)
    requires PrintableName(name) && name != "" && Blank(before) && Blank(after) && !EndsIn(value, '\\')
    ensures ParseLines([before + (name + after + "=" + value)] + rest, Some(section))
      == Before([UnitOption(section, name, Trim(value))], ParseLines(rest, Some(section)))
  {
    NameTrimmed(before, name, after, value);
    assert ([before + (name + after + "=" + value)] + rest)[1..] == rest;
    if Blank(value) {
      TrimBlank(value);
    }
  }

  // A header that is not closed, or has something after it, is an error anywhere.
  lemma HeaderOpen(line: string, rest: seq<string>, section: Option<string>)
    requires BeginsSection(line) && ']' !in line
    ensures ParseLines([line] + rest, section) == None
  {
    TrimLeftEnds(line);
    NoneThere(TrimLeft(line), ']');
  }

  lemma HeaderFollowed(before: string, name: string, after: string, rest: seq<string>, section: Option<string>)
    requires Blank(before) && ']' !in name && !Blank(after)
    ensures ParseLines([before + (['['] + name + [']'] + after)] + rest, section) == None
  {
    var line := ['['] + name + [']'] + after;
    BlankBefore(before, line);
    IndexOfFirst(['['] + name, ']', after);
    assert line[|['['] + name| + 1..] == after;
  }

  // A line of a section without '=' that is none of these is an error.
  lemma GarbageFails(line: string, rest: seq<string>, section: string)
    requires !SaysNothing(line) && !BeginsSection(line) && '=' !in line
    ensures ParseLines([line] + rest, Some(section)) == None
  {
    TrimLeftEnds(line);
    NoneThere(TrimLeft(line), '=');
  }

  lemma {:induction false} NoneThere(s: string, c: char)
    requires c !in s
    ensures IndexOf(s, c) == |s|
  {
    if s != "" {
      NoneThere(s[1..], c);
    }
  }
}
