// A package's ExecStart line when the pod gives neither command nor args (internal/provider/command.go:18-24):
// it is split at blanks and joined again all the same. When does systemd still run the same words?

module UntouchedLine {
  import opened Strings
  import opened CommandLine

  // The line as it is written back.
  function Rewritten(line: string): string {
    Join(Fields(line), " ")
  }

  lemma RewrittenIs(line: string)
    ensures Join(ExecWords([line], None, None, map[]), " ") == Rewritten(line)
  {
    var words := UnitWords([line]);
    assert ExecWords([line], None, None, map[]) == [words[0]] + words[1..] == words;
  }

  // ---- The same, character by character.

  // Runs of blanks become one space; at the end they go.
  function Squeeze(s: string): string {
    if s == "" then ""
    else if !IsSpace(s[0]) then [s[0]] + Squeeze(s[1..])
    else if |s| == 1 then ""
    else if IsSpace(s[1]) then Squeeze(s[1..])
    else " " + Squeeze(s[1..])
  }

  // Nothing to squeeze: every blank is a space and stands alone.
  predicate Neat(s: string) {
    s == "" || ((IsSpace(s[0]) ==> s[0] == ' ' && (|s| == 1 || !IsSpace(s[1]))) && Neat(s[1..]))
  }

  lemma SqueezeNext(c: char, s: string)
    requires !IsSpace(c)
    ensures Squeeze([c] + s) == [c] + Squeeze(s) && (Neat([c] + s) <==> Neat(s))
  {
    assert ([c] + s)[1..] == s;
  }

  lemma {:induction false} SqueezeWord(word: string, s: string)
    requires forall i :: 0 <= i < |word| ==> !IsSpace(word[i])
    ensures Squeeze(word + s) == word + Squeeze(s) && (Neat(word + s) <==> Neat(s))
  {
    if word == "" {
      assert word + s == s && "" + Squeeze(s) == Squeeze(s);
    } else {
      SqueezeWord(word[1..], s);
      assert word + s == [word[0]] + (word[1..] + s);
      SqueezeNext(word[0], word[1..] + s);
      assert [word[0]] + (word[1..] + Squeeze(s)) == word + Squeeze(s);
    }
  }

  lemma {:induction false} SqueezeBlanks(s: string)
    requires s != "" && IsSpace(s[0])
    ensures Squeeze(s) == if Fields(s) == [] then "" else " " + Rewritten(s)
    decreases |s|, 0
  {
    if |s| == 1 {
      assert s[1..] == "";
    } else if IsSpace(s[1]) {
      SqueezeBlanks(s[1..]);
    } else {
      SqueezeLine(s[1..]);
      assert s[1..][..0] == "";
    }
  }

  lemma {:induction false} SqueezeLine(s: string)
    requires s == "" || !IsSpace(s[0])
    ensures Squeeze(s) == Rewritten(s)
    decreases |s|, 1
  {
    if s != "" {
      var word, rest := s[..WordLen(s)], s[WordLen(s)..];
      WordLenWord(s);
      SqueezeWord(word, rest);
      assert s == word + rest;
      WordEnds(s);
      if rest != "" {
        SqueezeBlanks(rest);
      }
      JoinCons(word, Fields(rest));
    }
  }

  lemma {:induction false} WordEnds(s: string)
    ensures WordLen(s) < |s| ==> IsSpace(s[WordLen(s)])
    ensures s != "" && !IsSpace(s[0]) ==> WordLen(s) > 0
  {
    if s != "" && !IsSpace(s[0]) {
      WordEnds(s[1..]);
    }
  }

  lemma JoinCons(word: string, words: seq<string>)
    ensures Join([word] + words, " ") == if words == [] then word else word + (" " + Join(words, " "))
  {
    assert ([word] + words)[1..] == words;
  }

  // ---- One item.

  // No blank that separates words for strings.Fields but not for systemd.
  predicate NoVerticals(s: string) {
    forall i :: 0 <= i < |s| ==> IsSpace(s[i]) ==> IsBlank(s[i])
  }

  // What is left of an escape, and what it stands for.
  lemma UnescapeSplit(s: string) returns (e: string)
    requires Unescape(s).Some?
    ensures s == e + Unescape(s).value.1 && Unescape(e) == Some((Unescape(s).value.0, ""))
    ensures e != "" && forall i :: 0 <= i < |e| ==> !IsSpace(e[i])
  {
    var rest := Unescape(s).value.1;
    var n := |s| - |rest|;
    e := s[..n];
    assert n == 1 || n == 3;
    assert s[n..] == rest;
    if n == 1 {
      assert e[0] == s[0] && e[1..] == "";
    } else {
      assert e[0] == s[0] && e[1] == s[1] && e[2] == s[2] && e[3..] == "";
    }
  }

  // A backslash and its escape in front of the rest.
  lemma SqueezeEscape(e: string, rest: string)
    requires forall i :: 0 <= i < |e| ==> !IsSpace(e[i])
    ensures Squeeze(['\\'] + (e + rest)) == ['\\'] + (e + Squeeze(rest))
    ensures Neat(['\\'] + (e + rest)) <==> Neat(rest)
  {
    SqueezeWord(e, rest);
    SqueezeNext('\\', e + rest);
  }

  lemma EscapeStep(s: string)
    requires s != "" && s[0] == '\\' && Unescape(s[1..]).Some?
    ensures
      var (c, rest) := Unescape(s[1..]).value;
      && |rest| < |s| - 1
      && Squeeze(s) != "" && Squeeze(s)[0] == '\\' && Unescape(Squeeze(s)[1..]) == Some((c, Squeeze(rest)))
      && (Neat(s) <==> Neat(rest))
  {
    var (c, rest) := Unescape(s[1..]).value;
    var e := UnescapeSplit(s[1..]);
    assert s == ['\\'] + (e + rest);
    SqueezeEscape(e, rest);
    UnescapeWith(e, c, Squeeze(rest));
    TailOf('\\', e, Squeeze(rest));
  }

  lemma TailOf(c: char, a: string, b: string)
    ensures ([c] + (a + b))[0] == c && ([c] + (a + b))[1..] == a + b && "" + b == b
  {
  }

  // The inside of a quoted item, the closing quote included: squeezed it is still one item, whose word is
  // shorter or differs, unless there was nothing to squeeze.
  lemma {:induction false} QuotedSqueezed(s: string, quote: char)
    requires quote == '"' || quote == '\''
    requires QuotedItem(s, quote).Some? && QuotedItem(s, quote).value.1 == ""
    ensures QuotedItem(Squeeze(s), quote).Some? && QuotedItem(Squeeze(s), quote).value.1 == ""
    ensures |QuotedItem(Squeeze(s), quote).value.0| <= |QuotedItem(s, quote).value.0|
    ensures QuotedItem(Squeeze(s), quote) == QuotedItem(s, quote) <==> Neat(s)
    decreases |s|
  {
    if s[0] == quote {
      assert s == [quote];
    } else if s[0] == '\\' {
      EscapeStep(s);
      QuotedSqueezed(Unescape(s[1..]).value.1, quote);
      ConsedBoth(Unescape(s[1..]).value.0, QuotedItem(Unescape(s[1..]).value.1, quote),
        QuotedItem(Squeeze(Unescape(s[1..]).value.1), quote));
    } else {
      assert s[1..] != "";
      QuotedSqueezed(s[1..], quote);
      QuotedChar(s, quote);
    }
  }

  lemma ConsedBoth(c: char, a: Option<(string, string)>, b: Option<(string, string)>)
    ensures Consed(c, a) == Consed(c, b) <==> a == b
  {
    if a.Some? && b.Some? {
      assert ([c] + a.value.0)[1..] == a.value.0 && ([c] + b.value.0)[1..] == b.value.0;
    }
  }

  lemma QuotedChar(s: string, quote: char)
    requires quote == '"' || quote == '\''
    requires |s| > 1 && s[0] != quote && s[0] != '\\'
    requires QuotedItem(s[1..], quote).Some? && QuotedItem(Squeeze(s[1..]), quote).Some?
    requires |QuotedItem(Squeeze(s[1..]), quote).value.0| <= |QuotedItem(s[1..], quote).value.0|
    requires QuotedItem(Squeeze(s[1..]), quote) == QuotedItem(s[1..], quote) <==> Neat(s[1..])
    ensures QuotedItem(Squeeze(s), quote).Some?
    ensures QuotedItem(Squeeze(s), quote).value.1 == QuotedItem(Squeeze(s[1..]), quote).value.1
    ensures |QuotedItem(Squeeze(s), quote).value.0| <= |QuotedItem(s, quote).value.0|
    ensures QuotedItem(Squeeze(s), quote) == QuotedItem(s, quote) <==> Neat(s)
  {
    var more := Squeeze(s[1..]);
    if !IsSpace(s[0]) {
      assert ([s[0]] + more)[1..] == more;
      ConsedBoth(s[0], QuotedItem(s[1..], quote), QuotedItem(more, quote));
    } else if !IsSpace(s[1]) {
      assert (" " + more)[1..] == more;
      ConsedBoth(s[0], QuotedItem(s[1..], quote), QuotedItem(more, quote));
      if s[0] != ' ' {
        SpaceFirst(s[0], QuotedItem(s[1..], quote), QuotedItem(more, quote));
      }
    }
  }

  lemma SpaceFirst(c: char, a: Option<(string, string)>, b: Option<(string, string)>)
    requires a.Some? && b.Some? && c != ' '
    ensures Consed(c, a) != Consed(' ', b)
  {
    assert ([c] + a.value.0)[0] == c && (" " + b.value.0)[0] == ' ';
  }

  // ---- Cutting an item out of its line.

  lemma CutJoined(s: string, e: string, more: string, m: nat)
    requires s == ['\\'] + (e + more) && m <= |more|
    ensures s[..|e| + 1 + m][1..] == e + more[..m] && s[|e| + 1 + m..] == more[m..]
  {
  }

  // Cut after an escape and m characters of what follows it.
  lemma CutAfterEscape(s: string, m: nat)
    requires s != "" && s[0] == '\\' && Unescape(s[1..]).Some? && m <= |Unescape(s[1..]).value.1|
    ensures
      var (c, more) := Unescape(s[1..]).value;
      var n := |s| - |more| + m;
      0 < n && Unescape(s[..n][1..]) == Some((c, more[..m])) && s[n..] == more[m..]
  {
    var (c, more) := Unescape(s[1..]).value;
    var e := UnescapeSplit(s[1..]);
    assert s == ['\\'] + (e + more);
    CutJoined(s, e, more, m);
    UnescapeWith(e, c, more[..m]);
  }

  lemma UnescapeWith(e: string, c: char, more: string)
    requires Unescape(e) == Some((c, ""))
    ensures Unescape(e + more) == Some((c, more))
  {
    UnescapeAppend(e, more);
    assert "" + more == more;
  }

  lemma {:induction false} QuotedItemCut(s: string, quote: char)
    requires QuotedItem(s, quote).Some? && quote != '\\'
    ensures
      var (word, rest) := QuotedItem(s, quote).value;
      s[|s| - |rest|..] == rest && QuotedItem(s[..|s| - |rest|], quote) == Some((word, ""))
    decreases |s|
  {
    var (word, rest) := QuotedItem(s, quote).value;
    var n := |s| - |rest|;
    if s[0] == quote {
      assert s[..n] == [quote] && [quote][1..] == "";
    } else if s[0] == '\\' {
      var more := Unescape(s[1..]).value.1;
      QuotedItemCut(more, quote);
      CutAfterEscape(s, |more| - |rest|);
    } else {
      QuotedItemCut(s[1..], quote);
      assert s[..n][1..] == s[1..][..n - 1];
    }
  }

  predicate BareCut(s: string)
    requires BareItem(s).Some?
  {
    var (word, rest) := BareItem(s).value;
    s[|s| - |rest|..] == rest && BareItem(s[..|s| - |rest|]) == Some((word, ""))
  }

  lemma EscapedItem(t: string, c: char, more: string, word: string)
    requires t != "" && t[0] == '\\' && Unescape(t[1..]) == Some((c, more)) && BareItem(more) == Some((word, ""))
    ensures BareItem(t) == Some(([c] + word, ""))
  {
  }

  lemma BareEscaped(s: string, c: char, more: string)
    requires s != "" && s[0] == '\\' && Unescape(s[1..]) == Some((c, more))
    ensures BareItem(s) == Consed(c, BareItem(more))
  {
  }

  lemma CutEscaped(s: string, c: char, more: string, word: string, rest: string)
    requires s != "" && s[0] == '\\' && Unescape(s[1..]) == Some((c, more)) && |rest| <= |more| <= |s|
    requires more[|more| - |rest|..] == rest && BareItem(more[..|more| - |rest|]) == Some((word, ""))
    ensures s[|s| - |rest|..] == rest && BareItem(s[..|s| - |rest|]) == Some(([c] + word, ""))
  {
    var k := |more| - |rest|;
    CutAfterEscape(s, k);
    assert |s| - |more| + k == |s| - |rest|;
    EscapedItem(s[..|s| - |rest|], c, more[..k], word);
  }

  // What it is to be cut, without the item's own recursion.
  lemma CutBare(s: string, word: string, rest: string)
    requires BareItem(s) == Some((word, rest)) && |rest| <= |s|
    ensures BareCut(s) <==> s[|s| - |rest|..] == rest && BareItem(s[..|s| - |rest|]) == Some((word, ""))
  {
  }

  lemma CutAcrossEscape(s: string, c: char, more: string, word: string, rest: string)
    requires s != "" && s[0] == '\\' && Unescape(s[1..]) == Some((c, more)) && |rest| <= |more| <= |s|
    requires BareItem(more) == Some((word, rest)) && BareItem(s) == Some(([c] + word, rest)) && BareCut(more)
    ensures BareCut(s)
  {
    CutBare(more, word, rest);
    CutEscaped(s, c, more, word, rest);
    CutBare(s, [c] + word, rest);
  }

  lemma BareCutEscape(s: string)
    requires s != "" && s[0] == '\\' && BareItem(s).Some? && BareCut(Unescape(s[1..]).value.1)
    ensures BareCut(s)
  {
    var (c, more) := Unescape(s[1..]).value;
    var (word, rest) := BareItem(more).value;
    BareEscaped(s, c, more);
    CutAcrossEscape(s, c, more, word, rest);
  }

  lemma BareCutNext(s: string)
    requires s != "" && !Special(s[0]) && BareItem(s).Some? && BareCut(s[1..])
    ensures BareCut(s)
  {
    var (word, rest) := BareItem(s[1..]).value;
    var n := |s| - |rest|;
    assert s[..n][1..] == s[1..][..n - 1] && s[n..] == s[1..][n - 1..];
    PlainItem(s[..n], s[1..][..n - 1], word);
  }

  lemma PlainItem(t: string, more: string, word: string)
    requires t != "" && !Special(t[0]) && t[1..] == more && BareItem(more) == Some((word, ""))
    ensures BareItem(t) == Some(([t[0]] + word, ""))
  {
  }

  lemma {:induction false} BareItemCut(s: string)
    requires BareItem(s).Some?
    ensures BareCut(s)
    decreases |s|
  {
    if s == "" || IsBlank(s[0]) {
      assert s[..0] == "" && s[0..] == s;
    } else if s[0] == '\\' {
      BareItemCut(Unescape(s[1..]).value.1);
      BareCutEscape(s);
    } else {
      BareItemCut(s[1..]);
      BareCutNext(s);
    }
  }

  // A bare item that is a whole line has no blanks.
  predicate NoBlanks(s: string) {
    forall i :: 0 <= i < |s| ==> !IsBlank(s[i])
  }

  lemma {:induction false} BareNoBlanks(s: string)
    requires BareItem(s).Some? && BareItem(s).value.1 == ""
    ensures NoBlanks(s)
    decreases |s|
  {
    if s != "" {
      if s[0] == '\\' {
        var more := Unescape(s[1..]).value.1;
        var e := UnescapeSplit(s[1..]);
        BareNoBlanks(more);
        assert s == ['\\'] + (e + more);
      } else {
        BareNoBlanks(s[1..]);
        assert s == [s[0]] + s[1..];
      }
    }
  }

  // The text of the first item.
  function FirstItem(s: string): string
    requires s != "" && !IsBlank(s[0]) && NextItem(s).Some?
  {
    s[..|s| - |NextItem(s).value.1|]
  }

  lemma ItemCut(s: string)
    requires s != "" && !IsBlank(s[0]) && NextItem(s).Some?
    ensures
      var (word, rest) := NextItem(s).value;
      var item := FirstItem(s);
      && s == item + rest && item != "" && item[0] == s[0]
      && NextItem(item) == Some((word, "")) && (rest == "" || IsBlank(rest[0]))
  {
    var (word, rest) := NextItem(s).value;
    if s[0] == '"' || s[0] == '\'' {
      QuotedItemCut(s[1..], s[0]);
      assert FirstItem(s)[1..] == s[1..][..|s[1..]| - |rest|];
    } else {
      BareItemCut(s);
    }
  }

  // Rewritten alone, an item stays one item, with the same word iff it is neat.
  lemma ItemSqueezed(item: string) returns (word: string)
    requires item != "" && !IsBlank(item[0]) && NoVerticals(item)
    requires NextItem(item).Some? && NextItem(item).value.1 == ""
    ensures SplitCommand(Rewritten(item)) == Some([word])
    ensures word == NextItem(item).value.0 <==> Neat(item)
  {
    SqueezeLine(item);
    var q := item[0];
    if q == '"' || q == '\'' {
      QuotedSqueezed(item[1..], q);
      assert item == [q] + item[1..];
      SqueezeNext(q, item[1..]);
      assert ([q] + Squeeze(item[1..]))[1..] == Squeeze(item[1..]);
      word := QuotedItem(Squeeze(item[1..]), q).value.0;
    } else {
      BareNoBlanks(item);
      assert item + "" == item;
      SqueezeWord(item, "");
      word := NextItem(item).value.0;
    }
    assert SplitCommand("") == Some([]) && [word] + [] == [word];
  }

  // ---- A line without verticals keeps its items.

  predicate ItemsNeat(line: string)
    decreases |line|
  {
    if line == "" then true
    else if IsBlank(line[0]) then ItemsNeat(line[1..])
    else if NextItem(line).None? then true
    else Neat(FirstItem(line)) && ItemsNeat(NextItem(line).value.1)
  }

  lemma {:induction false} FieldsAppend(a: string, b: string)
    requires b == "" || IsSpace(b[0])
    ensures Fields(a + b) == Fields(a) + Fields(b)
    decreases |a|
  {
    if a == "" {
      assert a + b == b;
    } else if IsSpace(a[0]) {
      assert (a + b)[1..] == a[1..] + b;
      FieldsAppend(a[1..], b);
    } else {
      WordEnds(a);
      FieldsAppend(a[WordLen(a)..], b);
      FieldsFirst(a, b);
    }
  }

  lemma FieldsFirst(a: string, b: string)
    requires a != "" && !IsSpace(a[0]) && (b == "" || IsSpace(b[0]))
    requires WordLen(a) > 0 && Fields(a[WordLen(a)..] + b) == Fields(a[WordLen(a)..]) + Fields(b)
    ensures Fields(a + b) == Fields(a) + Fields(b)
  {
    LeadingWord(a, b);
    FieldsStep(a);
    FieldsStep(a + b);
    ConsAppend(a[..WordLen(a)], Fields(a[WordLen(a)..]), Fields(b));
  }

  lemma LeadingWord(a: string, b: string)
    requires a != "" && (b == "" || IsSpace(b[0]))
    ensures
      var n := WordLen(a);
      && WordLen(a + b) == n && (a + b)[0] == a[0] && a + b != ""
      && (a + b)[..n] == a[..n] && (a + b)[n..] == a[n..] + b
  {
    WordLenAppend(a, b);
  }

  lemma FieldsStep(s: string)
    requires s != "" && !IsSpace(s[0]) && WordLen(s) > 0
    ensures Fields(s) == [s[..WordLen(s)]] + Fields(s[WordLen(s)..])
  {
  }

  lemma ConsAppend(word: string, a: seq<string>, b: seq<string>)
    ensures [word] + (a + b) == [word] + a + b
  {
  }

  lemma {:induction false} WordLenAppend(a: string, b: string)
    requires b == "" || IsSpace(b[0])
    ensures WordLen(a + b) == WordLen(a)
  {
    if a == "" {
      assert a + b == b;
    } else if !IsSpace(a[0]) {
      assert (a + b)[1..] == a[1..] + b;
      WordLenAppend(a[1..], b);
    }
  }

  lemma {:induction false} JoinAppend(a: seq<string>, b: seq<string>)
    requires a != []
    ensures Join(a + b, " ") == if b == [] then Join(a, " ") else Join(a, " ") + " " + Join(b, " ")
  {
    if b == [] {
      assert a + b == a;
    } else if |a| == 1 {
      assert a + b == [a[0]] + b;
      JoinCons(a[0], b);
    } else {
      assert a + b == [a[0]] + (a[1..] + b);
      JoinCons(a[0], a[1..] + b);
      JoinAppend(a[1..], b);
    }
  }

  lemma RewrittenItem(item: string, rest: string)
    requires item != "" && !IsSpace(item[0]) && (rest == "" || IsSpace(rest[0]))
    ensures Rewritten(item + rest)
         == if Fields(rest) == [] then Rewritten(item) else Rewritten(item) + " " + Rewritten(rest)
  {
    FieldsAppend(item, rest);
    JoinAppend(Fields(item), Fields(rest));
  }

  lemma {:induction false} Aligned(line: string)
    requires SplitCommand(line).Some? && NoVerticals(line)
    ensures SplitCommand(Rewritten(line)).Some? && |SplitCommand(Rewritten(line)).value| == |SplitCommand(line).value|
    ensures SplitCommand(Rewritten(line)) == SplitCommand(line) <==> ItemsNeat(line)
    decreases |line|
  {
    if line != "" {
      if IsBlank(line[0]) {
        assert NoVerticals(line[1..]);
        Aligned(line[1..]);
      } else {
        var item, rest := FirstItem(line), NextItem(line).value.1;
        ItemCut(line);
        assert NoVerticals(item) by { assert forall i :: 0 <= i < |item| ==> item[i] == line[i]; }
        assert NoVerticals(rest) by { assert forall i :: 0 <= i < |rest| ==> rest[i] == line[|item| + i]; }
        Aligned(rest);
        RewrittenItem(item, rest);
        var word := ItemSqueezed(item);
        AlignedItem(word, NextItem(line).value.0, Rewritten(item), rest);
      }
    }
  }

  lemma AlignedItem(word: string, meant: string, text: string, rest: string)
    requires SplitCommand(text) == Some([word])
    requires SplitCommand(rest).Some? && SplitCommand(Rewritten(rest)).Some?
    requires |SplitCommand(Rewritten(rest)).value| == |SplitCommand(rest).value|
    ensures
      var whole := if Fields(rest) == [] then text else text + " " + Rewritten(rest);
      && SplitCommand(whole) == Before([word], SplitCommand(Rewritten(rest)))
      && (SplitCommand(whole) == Before([meant], SplitCommand(rest))
          <==> word == meant && SplitCommand(Rewritten(rest)) == SplitCommand(rest))
  {
    if Fields(rest) == [] {
      assert SplitCommand(Rewritten(rest)) == Some([]) && [word] + [] == [word];
    } else {
      SplitCommandAppend(text, Rewritten(rest));
    }
    var a, b := SplitCommand(Rewritten(rest)).value, SplitCommand(rest).value;
    assert [word] + a == [meant] + b <==> word == meant && a == b by {
      assert ([word] + a)[1..] == a && ([meant] + b)[1..] == b && ([word] + a)[0] == word && ([meant] + b)[0] == meant;
    }
  }

  // ---- A vertical tab or form feed is always missed: count them, escaped ones included.

  function Vertical(c: char): nat {
    if IsSpace(c) && !IsBlank(c) then 1 else 0
  }

  function Count(word: string): nat {
    if word == "" then 0 else Vertical(word[0]) + Count(word[1..])
  }

  function CountAll(words: seq<string>): nat {
    if words == [] then 0 else Count(words[0]) + CountAll(words[1..])
  }

  function Tally(s: string): nat
    decreases |s|
  {
    if s == "" then 0
    else if s[0] != '\\' then Vertical(s[0]) + Tally(s[1..])
    else if Unescape(s[1..]).None? then 0
    else Vertical(Unescape(s[1..]).value.0) + Tally(Unescape(s[1..]).value.1)
  }

  // Every backslash starts an escape.
  predicate Escaped(s: string)
    decreases |s|
  {
    s == "" || (if s[0] != '\\' then Escaped(s[1..]) else Unescape(s[1..]).Some? && Escaped(Unescape(s[1..]).value.1))
  }

  lemma CountCons(c: char, word: string)
    ensures Count([c] + word) == Vertical(c) + Count(word)
  {
    assert ([c] + word)[1..] == word;
  }

  lemma {:induction false} TallyQuoted(s: string, quote: char)
    requires QuotedItem(s, quote).Some? && (quote == '"' || quote == '\'')
    ensures
      var (word, rest) := QuotedItem(s, quote).value;
      Tally(s) == Count(word) + Tally(rest) && (Escaped(rest) ==> Escaped(s))
    decreases |s|
  {
    if s[0] == '\\' {
      var (c, more) := Unescape(s[1..]).value;
      TallyQuoted(more, quote);
      CountCons(c, QuotedItem(more, quote).value.0);
    } else if s[0] != quote {
      TallyQuoted(s[1..], quote);
      CountCons(s[0], QuotedItem(s[1..], quote).value.0);
    }
  }

  lemma {:induction false} TallyBare(s: string)
    requires BareItem(s).Some?
    ensures
      var (word, rest) := BareItem(s).value;
      Tally(s) == Count(word) + Tally(rest) && (Escaped(rest) ==> Escaped(s))
    decreases |s|
  {
    if s != "" && !IsBlank(s[0]) {
      if s[0] == '\\' {
        var (c, more) := Unescape(s[1..]).value;
        TallyBare(more);
        CountCons(c, BareItem(more).value.0);
      } else {
        TallyBare(s[1..]);
        CountCons(s[0], BareItem(s[1..]).value.0);
      }
    }
  }

  lemma {:induction false} TallySplit(s: string)
    requires SplitCommand(s).Some?
    ensures Tally(s) == CountAll(SplitCommand(s).value) && Escaped(s)
    decreases |s|
  {
    if s != "" {
      if IsBlank(s[0]) {
        TallySplit(s[1..]);
      } else {
        var (word, rest) := NextItem(s).value;
        if s[0] == '"' || s[0] == '\'' {
          TallyQuoted(s[1..], s[0]);
        } else {
          TallyBare(s);
        }
        TallySplit(rest);
        assert ([word] + SplitCommand(rest).value)[1..] == SplitCommand(rest).value;
      }
    }
  }

  lemma {:induction false} CountAppend(a: string, b: string)
    ensures Count(a + b) == Count(a) + Count(b)
  {
    if a == "" {
      assert a + b == b;
    } else {
      CountAppend(a[1..], b);
      assert (a + b)[0] == a[0] && (a + b)[1..] == a[1..] + b;
    }
  }

  lemma {:induction false} CountNone(s: string)
    ensures Count(s) == 0 <==> NoVerticals(s)
  {
    if s != "" {
      CountNone(s[1..]);
      assert s == [s[0]] + s[1..];
    }
  }

  lemma EscapeRaw(s: string)
    requires s != "" && s[0] == '\\' && Unescape(s[1..]).Some?
    ensures Count(s) == Count(Unescape(s[1..]).value.1)
  {
    var e := UnescapeSplit(s[1..]);
    CountNone(e);
    CountAppend(e, Unescape(s[1..]).value.1);
  }

  lemma {:induction false} TallySqueeze(s: string)
    requires Escaped(s)
    ensures Tally(Squeeze(s)) + Count(s) == Tally(s)
    decreases |s|
  {
    if s != "" {
      if s[0] == '\\' {
        EscapeStep(s);
        EscapeRaw(s);
        TallySqueeze(Unescape(s[1..]).value.1);
      } else {
        TallySqueeze(s[1..]);
        var more := Squeeze(s[1..]);
        assert ([s[0]] + more)[1..] == more && (" " + more)[1..] == more;
      }
    }
  }

  lemma {:induction false} TallyRewritten(line: string)
    requires Escaped(line)
    ensures Tally(Rewritten(line)) + Count(line) == Tally(line)
  {
    if line != "" && IsSpace(line[0]) {
      TallyRewritten(line[1..]);
    } else {
      SqueezeLine(line);
      TallySqueeze(line);
    }
  }

  lemma {:induction false} NeatNoVerticals(s: string)
    requires Neat(s)
    ensures NoVerticals(s)
  {
    if s != "" {
      NeatNoVerticals(s[1..]);
      assert s == [s[0]] + s[1..];
    }
  }

  lemma {:induction false} ItemsNeatNoVerticals(line: string)
    requires SplitCommand(line).Some? && ItemsNeat(line)
    ensures NoVerticals(line)
    decreases |line|
  {
    if line != "" {
      if IsBlank(line[0]) {
        ItemsNeatNoVerticals(line[1..]);
        assert line == [line[0]] + line[1..];
      } else {
        var item, rest := FirstItem(line), NextItem(line).value.1;
        ItemCut(line);
        NeatNoVerticals(item);
        ItemsNeatNoVerticals(rest);
      }
    }
  }

  // Of every line that systemd accepts: it still runs the same words iff each item, as it is written, has
  // no blanks but single spaces. For an unquoted item that means none, a vertical tab or form feed being
  // the only ones there could be.
  lemma LineRunsAsWritten(line: string)
    requires SplitCommand(line).Some?
    ensures SplitCommand(Join(ExecWords([line], None, None, map[]), " ")) == SplitCommand(line) <==> ItemsNeat(line)
  {
    RewrittenIs(line);
    if ItemsNeat(line) {
      ItemsNeatNoVerticals(line);
      Aligned(line);
    } else if SplitCommand(Rewritten(line)) == SplitCommand(line) {
      TallySplit(line);
      TallySplit(Rewritten(line));
      TallyRewritten(line);
      CountNone(line);
      Aligned(line);
    }
  }
}
