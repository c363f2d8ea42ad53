// Package unit files: values as the parser delivers them, in which every line break is continued over.

module Shipped {
  import opened Strings
  import opened UnitFile
  import opened UnitText

  predicate Flows(before: char, v: string)
    decreases |v|
  {
    v == "" || ((v[0] == '\n' ==> before == '\\') && Flows(v[0], v[1..]))
  }

  predicate Continued(v: string) {
    Flows(' ', v)
  }

  predicate Delivered(opts: seq<UnitOption>) {
    Named(opts) && forall o :: o in opts ==> Continued(o.value) && Tight(o.value)
  }

  function LastOf(before: char, v: string): char {
    if v == "" then before else v[|v| - 1]
  }

  lemma {:induction false} FlowsAppend(before: char, a: string, b: string)
    ensures Flows(before, a + b) <==> Flows(before, a) && Flows(LastOf(before, a), b)
    decreases |a|
  {
    if a == "" {
      assert a + b == b;
    } else {
      assert (a + b)[0] == a[0] && (a + b)[1..] == a[1..] + b;
      FlowsAppend(a[0], a[1..], b);
    }
  }

  lemma {:induction false} FlowsLine(before: char, line: string)
    requires '\n' !in line
    ensures Flows(before, line)
    decreases |line|
  {
    if line != "" {
      FlowsLine(line[0], line[1..]);
    }
  }

  lemma FlowsAfter(before: char, other: char, v: string)
    requires Flows(before, v) && before != '\\'
    ensures Flows(other, v)
  {
  }

  lemma {:induction false} ContinuedTrimLeft(v: string)
    requires Continued(v)
    ensures Continued(TrimLeft(v))
  {
    if v != "" && IsSpace(v[0]) {
      FlowsAfter(v[0], ' ', v[1..]);
      ContinuedTrimLeft(v[1..]);
    }
  }

  lemma ContinuedTrim(v: string)
    requires Continued(v)
    ensures Continued(Trim(v))
  {
    var left := TrimLeft(v);
    ContinuedTrimLeft(v);
    TrimRightEnds(left);
    assert left == Trim(v) + left[|Trim(v)|..];
    FlowsAppend(' ', Trim(v), left[|Trim(v)|..]);
  }

  lemma {:induction false} TakeContinued(line: string, rest: seq<string>)
    requires '\n' !in line && NoBreaks(rest)
    ensures Continued(TakeValue(line, rest).0)
    decreases |rest|
  {
    FlowsLine(' ', line);
    if !Blank(line) && EndsIn(line, '\\') && rest != [] {
      var value := TakeValue(rest[0], rest[1..]).0;
      TakeContinued(rest[0], rest[1..]);
      FlowsAfter(' ', '\n', value);
      assert Flows('\\', "\n" + value) by {
        assert ("\n" + value)[1..] == value;
      }
      FlowsAppend(' ', line, "\n" + value);
      assert line + "\n" + value == line + ("\n" + value);
    }
  }

  lemma ClassifyFirst(raw: string)
    requires '\n' !in raw && Classify(raw).Setting?
    ensures '\n' !in Classify(raw).first
  {
    TrimLeftEnds(raw);
  }

  lemma {:induction false} ParsedLinesDelivered(lines: seq<string>, section: Option<string>)
    requires NoBreaks(lines)
    ensures ParseLines(lines, section).Some? ==>
      forall o :: o in ParseLines(lines, section).value ==> Continued(o.value) && Tight(o.value)
    decreases |lines|
  {
    if lines != [] {
      var rest := lines[1..];
      match Classify(lines[0])
      case Header(name) => ParsedLinesDelivered(rest, Some(name));
      case Setting(_, first) =>
        var (value, after) := TakeValue(first, rest);
        ClassifyFirst(lines[0]);
        TakeContinued(first, rest);
        ContinuedTrim(value);
        TrimTight(value);
        TakeRest(first, rest);
        ParsedLinesDelivered(after, section);
        ParsedLinesDelivered(rest, section);
      case _ => ParsedLinesDelivered(rest, section);
    }
  }

  lemma ParsedDelivered(text: string)
    ensures Parse(text).Some? ==> Delivered(Parse(text).value)
  {
    SplitPieces(text, '\n');
    ParsedNamed(text);
    ParsedLinesDelivered(Split(text, '\n'), None);
  }

  // All lines but the last go on.
  predicate Chained(before: char, lines: seq<string>)
    decreases |lines|
  {
    |lines| <= 1 || (LastOf(before, lines[0]) == '\\' && Chained('\n', lines[1..]))
  }

  lemma {:induction false} FlowsChained(before: char, v: string)
    requires Flows(before, v)
    ensures Chained(before, Split(v, '\n'))
    decreases |v|
  {
    if v != "" {
      FlowsChained(v[0], v[1..]);
      var rest := Split(v[1..], '\n');
      if v[0] == '\n' {
        assert Split(v, '\n')[1..] == rest;
      } else {
        assert Split(v, '\n')[1..] == rest[1..];
      }
    }
  }

  lemma {:induction false} ChainedEnds(before: char, lines: seq<string>, last: bool)
    requires lines != [] && Chained(before, lines) && before != '\\'
    ensures Ends(lines, last) <==> last || !EndsIn(lines[|lines| - 1], '\\')
    decreases |lines|
  {
    if |lines| > 1 {
      ChainedEnds('\n', lines[1..], last);
    }
  }

  lemma {:induction false} LastLineEnds(v: string, c: char)
    requires c != '\n'
    ensures EndsIn(v, c) <==> EndsIn(Split(v, '\n')[|Split(v, '\n')| - 1], c)
  {
    if v != "" {
      LastLineEnds(v[1..], c);
    }
  }

  // Such a value returns unless it ends in a backslash and its section goes on.
  lemma ContinuedReturns(v: string, last: bool)
    requires Continued(v)
    ensures Returns(v, last) <==> last || !EndsIn(v, '\\')
  {
    FlowsChained(' ', v);
    ChainedEnds(' ', Split(v, '\n'), last);
    LastLineEnds(v, '\\');
  }

  // Of values the parser delivered, all come back unless one ends in a backslash and its section goes on.
  lemma {:induction false} DeliveredComesBack(opts: seq<UnitOption>)
    requires Delivered(opts)
    ensures ComesBack(opts) <==> forall i :: 0 <= i < |opts| ==> !SwallowsAt(opts, i)
  {
    if opts != [] {
      assert opts[0] in opts;
      DeliveredComesBack(opts[1..]);
      ContinuedReturns(opts[0].value, !HasSection(opts[1..], opts[0].section));
      SwallowsFirst(opts);
    }
  }
}
