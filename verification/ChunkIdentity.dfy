/** When two files with the same document hash have the same chunks. */
module ChunkIdentity {
  import opened Text
  import opened Wrappers
  import opened Chunking
  import opened NormalText

  // ---------------------------------------------------------------- ink: what normalising cannot remove

  /** The characters that are no blanks. */
  function Ink(s: string): nat {
    if s == "" then 0 else (if IsSpace(s[0]) then 0 else 1) + Ink(s[1..])
  }

  lemma {:induction false} InkConcat(a: string, b: string)
    ensures Ink(a + b) == Ink(a) + Ink(b)
  {
    if a == "" {
      assert a + b == b;
    } else {
      assert (a + b)[1..] == a[1..] + b;
      InkConcat(a[1..], b);
    }
  }

  lemma InkCons(c: char, s: string)
    ensures Ink([c] + s) == (if IsSpace(c) then 0 else 1) + Ink(s)
  {
    assert ([c] + s)[1..] == s;
  }

  lemma {:induction false} InkTrimRight(s: string)
    ensures Ink(TrimRight(s)) == Ink(s)
  {
    if s != "" && IsSpace(s[|s| - 1]) {
      InkTrimRight(s[..|s| - 1]);
      InkConcat(s[..|s| - 1], [s[|s| - 1]]);
      assert s == s[..|s| - 1] + [s[|s| - 1]];
      assert [s[|s| - 1]][1..] == "";
    } else {
    }
  }

  lemma {:induction false} InkTrimLeft(s: string)
    ensures Ink(TrimLeft(s)) == Ink(s)
  {
    if s != "" && IsSpace(s[0]) { InkTrimLeft(s[1..]); }
  }

  lemma {:induction false} InkTidied(u: string)
    ensures Ink(Tidied(u)) == Ink(u)
  {
    if u == "" {
      TidiedOfNothing();
    } else {
      var c, v := u[0], u[1..];
      assert u == [c] + v;
      InkTidied(v);
      if c == '\n' { TidiedBreak(v); } else { TidiedCons(c, v); }
      InkCons(c, Tidied(v));
    }
  }

  lemma {:induction false} InkReplaceCrLf(s: string)
    ensures Ink(ReplaceCrLf(s)) == Ink(s)
  {
    if s == "" {
    } else if s[0] == '\r' && |s| > 1 && s[1] == '\n' {
      InkReplaceCrLf(s[2..]);
      assert s[1..][1..] == s[2..];
      InkCons('\n', ReplaceCrLf(s[2..]));
    } else {
      InkReplaceCrLf(s[1..]);
      InkCons(s[0], ReplaceCrLf(s[1..]));
    }
  }

  lemma {:induction false} InkReplaceCr(s: string)
    ensures Ink(ReplaceCr(s)) == Ink(s)
  {
    if s != "" {
      InkReplaceCr(s[1..]);
      InkCons(ReplaceCr(s)[0], ReplaceCr(s[1..]));
      assert ReplaceCr(s) == [ReplaceCr(s)[0]] + ReplaceCr(s[1..]);
    } else {
    }
  }

  /** Normalising takes away and adds blanks only. */
  lemma InkNormalize(text: string)
    ensures Ink(Normalize(text)) == Ink(text)
  {
    var once := ReplaceCrLf(text);
    var u := ReplaceCr(once);
    InkReplaceCrLf(text);
    InkReplaceCr(once);
    InkNeat(u);
    assert Normalize(text) == Neat(u);
  }

  lemma InkNeat(u: string)
    ensures Ink(Neat(u)) == Ink(u)
  {
    InkTidied(u);
    InkTrimLeft(Tidied(u));
    InkTrimRight(TrimLeft(Tidied(u)));
  }

  /** A chunk's text has the ink of its head and of its section's body. */
  lemma InkOfChunk(title: string, name: string, body: string, head: string)
    requires head == title + " \U{2014} " + name + "\n\n"
    ensures Ink(ChunkText(title, name, body)) == Ink(head) + Ink(body)
  {
    InkOfText(head, Normalize(body), ChunkText(title, name, body));
    InkNormalize(body);
  }

  lemma InkOfText(head: string, body: string, text: string)
    requires text == Normalize(head + body)
    ensures Ink(text) == Ink(head) + Ink(body)
  {
    InkNormalize(head + body);
    InkConcat(head, body);
  }

  // ---------------------------------------------------------------- a chunk's text tells its body

  lemma {:induction false} TidiedInTwo(v: string, w: string, rest: string)
    requires rest == ['\n'] + Tidied(w)
    ensures Tidied(v + ['\n'] + w) == Tidied(v) + rest
    decreases |v|
  {
    if v == "" {
      TidiedBreakFirst(v, w);
    } else {
      var c, u := v[0], v[1..];
      TidiedInTwo(u, w, rest);
      OneMoreBefore(c, u, u + ['\n'] + w, rest, v, v + ['\n'] + w);
    }
  }

  lemma TidiedBreakFirst(v: string, w: string)
    requires v == ""
    ensures Tidied(v + ['\n'] + w) == Tidied(v) + (['\n'] + Tidied(w))
  {
    assert v + ['\n'] + w == ['\n'] + w;
    TidiedBreak(w);
    TidiedOfNothing();
  }

  lemma OneMoreBefore(c: char, u: string, all: string, rest: string, v: string, whole: string)
    requires Tidied(all) == Tidied(u) + rest && rest != "" && rest[0] == '\n'
    requires v == [c] + u && whole == [c] + all
    ensures Tidied(whole) == Tidied(v) + rest
  {
    if c == '\n' {
      TidiedBreak(u);
      TidiedBreak(all);
      PutBefore(c, Tidied(u), rest);
    } else {
      TidiedCons(c, u);
      TidiedCons(c, all);
      PutBefore(c, Tidied(u), rest);
    }
  }

  lemma PutBefore(c: char, x: string, rest: string)
    requires rest != "" && rest[0] == '\n'
    ensures AtLineEnd(x + rest) <==> AtLineEnd(x)
    ensures [c] + (x + rest) == [c] + x + rest
  {
  }

  lemma NormalIsTidied(t: string)
    requires NormalForm(t)
    ensures Tidied(t) == t
  {
    TidyLines(t);
    SplitThenJoin(t, '\n');
    assert TrimLines(Split(t, '\n')) == Split(t, '\n');
  }

  lemma {:induction false} LeadingBlanks(before: string, s: string)
    requires Blank(before)
    ensures Trim(before + s) == Trim(s)
    decreases |before|
  {
    if before == "" {
      assert before + s == s;
    } else {
      LeadingBlanks(before[1..], s);
      LeadingBlank(before[0], before[1..] + s);
      assert before + s == [before[0]] + (before[1..] + s);
    }
  }

  /** A normal form below other text is still all there. */
  function Below(q: string, n: string): string {
    if n == "" then TrimRight(q) else q + ['\n'] + n
  }

  lemma NeatAbove(v: string, n: string, t: string)
    requires NormalForm(n) && Ink(v) > 0 && t == Tidied(v)
    ensures Neat(v + ['\n'] + n) == Below(TrimLeft(t), n)
  {
    NormalIsTidied(n);
    TidiedInTwo(v, n, ['\n'] + n);
    InkTidied(v);
    InkTrimLeft(t);
    var before := BlanksBeforeInk(t);
    TrimBelow(t, before, TrimLeft(t), n);
  }

  lemma TrimBelow(t: string, before: string, q: string, n: string)
    requires NormalForm(n) && t == before + q && Blank(before) && q != "" && !IsSpace(q[0])
    ensures Trim(t + (['\n'] + n)) == Below(q, n)
  {
    NormalBelow(q, n);
    assert t + (['\n'] + n) == before + (q + (['\n'] + n));
    TrimWrapped(t + (['\n'] + n), before, q + (['\n'] + n), Below(q, n));
  }

  lemma TrimWrapped(whole: string, before: string, rest: string, r: string)
    requires whole == before + rest && Blank(before) && rest != "" && !IsSpace(rest[0]) && TrimRight(rest) == r
    ensures Trim(whole) == r
  {
    LeadingBlanks(before, rest);
    StartsInInk(rest);
  }

  lemma NormalBelow(q: string, n: string)
    requires NormalForm(n)
    ensures TrimRight(q + (['\n'] + n)) == Below(q, n)
  {
    TrimRightConcat(q, ['\n'] + n);
    if n == "" {
      assert ['\n'] + n == ['\n'] && ['\n'][..0] == "";
    } else {
      TrimRightOfTrimmed(['\n'] + n);
      assert q + (['\n'] + n) == q + ['\n'] + n;
    }
  }

  lemma UnifiedAbove(head: string, n: string)
    requires '\r' !in n && head != "" && head[|head| - 1] != '\r'
    ensures UnifyLineEndings(head + (['\n'] + n)) == UnifyLineEndings(head) + ['\n'] + n
  {
    ReplaceCrLfConcat(head, ['\n'] + n);
    ReplaceCrConcat(ReplaceCrLf(head), ReplaceCrLf(['\n'] + n));
    UnifyKeepsUnified(['\n'] + n);
    assert UnifyLineEndings(head) + (['\n'] + n) == UnifyLineEndings(head) + ['\n'] + n;
  }

  lemma BelowIsInjective(q: string, m: string, n: string)
    ensures Below(q, m) == Below(q, n) <==> m == n
  {
    if m != "" && n != "" && Below(q, m) == Below(q, n) {
      assert m == Below(q, m)[|q| + 1..] == Below(q, n)[|q| + 1..] == n;
    }
  }

  /** Under one title and name two bodies have the same chunk text if and only if they have the same
      normal form. */
  lemma TextTellsBody(title: string, name: string, x: string, y: string)
    ensures ChunkText(title, name, x) == ChunkText(title, name, y) <==> Normalize(x) == Normalize(y)
  {
    var q := TextAbove(title, name);
    BelowIsInjective(q, Normalize(x), Normalize(y));
  }

  /** What stands above the body in a chunk's text. */
  lemma TextAbove(title: string, name: string) returns (q: string)
    ensures forall body :: ChunkText(title, name, body) == Below(q, Normalize(body))
  {
    var head := title + " \U{2014} " + name + ['\n'];
    var v := UnifyLineEndings(head);
    var t := Tidied(v);
    q := TrimLeft(t);
    HeadHasInk(title, name, head);
    forall body ensures ChunkText(title, name, body) == Below(q, Normalize(body)) {
      OneText(title, name, head, v, t, body, Normalize(body));
    }
  }

  lemma OneText(title: string, name: string, head: string, v: string, t: string, body: string, n: string)
    requires head == title + " \U{2014} " + name + ['\n'] && v == UnifyLineEndings(head) && Ink(v) > 0
    requires t == Tidied(v) && n == Normalize(body)
    ensures ChunkText(title, name, body) == Below(TrimLeft(t), n)
  {
    NormalizeGivesNormalForm(body);
    UnifiedAbove(head, n);
    NeatAbove(v, n, t);
    InTwoParts(title, name, head, n);
    NormalizeIsNeat(head + (['\n'] + n), v + ['\n'] + n);
  }

  lemma NormalizeIsNeat(s: string, u: string)
    requires u == UnifyLineEndings(s)
    ensures Normalize(s) == Neat(u)
  {
  }

  lemma InTwoParts(title: string, name: string, head: string, n: string)
    requires head == title + " \U{2014} " + name + ['\n']
    ensures title + " \U{2014} " + name + "\n\n" + n == head + (['\n'] + n)
  {
  }

  lemma HeadHasInk(title: string, name: string, head: string)
    requires head == title + " \U{2014} " + name + ['\n']
    ensures Ink(UnifyLineEndings(head)) > 0
  {
    var dash := '\U{2014}';
    assert head == (title + [' ']) + ([dash] + ([' '] + name + ['\n']));
    InkConcat(title + [' '], [dash] + ([' '] + name + ['\n']));
    InkCons(dash, [' '] + name + ['\n']);
    InkReplaceCrLf(head);
    InkReplaceCr(ReplaceCrLf(head));
  }

  /** So CRLF in a section's body shows in its chunk if and only if one is left once the body is trimmed. */
  lemma CrLfKeepsText(title: string, name: string, body: string)
    ensures ChunkText(title, name, ToCrLf(body)) == ChunkText(title, name, body) <==> !HasCrLf(Trim(body))
  {
    TextTellsBody(title, name, ToCrLf(body), body);
    CrLfKeepsDocument(body);
  }

  // ---------------------------------------------------------------- sections, from the last line up

  /** What lines come to after a break: the text up to their first heading, and their sections. */
  function Blocks(lines: seq<string>): Parts {
    if lines == [] then Parts("", [])
    else
      var rest := Blocks(lines[1..]);
      if IsHeading(lines[0]) then Parts(['\n'], [Section(lines[0][3..], rest.head)] + rest.sections)
      else Parts(['\n'] + lines[0] + rest.head, rest.sections)
  }

  function Extended(st: Parts, more: Parts): Parts {
    var grown := AddText(st, more.head);
    grown.(sections := grown.sections + more.sections)
  }

  lemma AddTextTwice(st: Parts, x: string, y: string)
    ensures AddText(AddText(st, x), y) == AddText(st, x + y)
  {
    if st.sections == [] {
      assert st.head + x + y == st.head + (x + y);
    } else {
      var last := |st.sections| - 1;
      assert st.sections[last].body + x + y == st.sections[last].body + (x + y);
    }
  }

  lemma {:induction false} AddLinesAreBlocks(st: Parts, lines: seq<string>)
    ensures AddLines(st, lines) == Extended(st, Blocks(lines))
    decreases |lines|
  {
    if lines == [] {
      NothingAdded(st);
    } else {
      var rest := Blocks(lines[1..]);
      AddLinesAreBlocks(AddLine(st, lines[0]), lines[1..]);
      LineThenBlocks(st, lines[0], rest);
    }
  }

  lemma NothingAdded(st: Parts)
    ensures Extended(st, Parts("", [])) == st
  {
    if st.sections != [] {
      var last := |st.sections| - 1;
      assert st.sections[last].body + "" == st.sections[last].body;
      assert st.sections[last := st.sections[last]] == st.sections;
    } else {
      assert st.head + "" == st.head;
    }
  }

  lemma LineThenBlocks(st: Parts, line: string, rest: Parts)
    ensures Extended(AddLine(st, line), rest)
            == Extended(st, if IsHeading(line) then Parts(['\n'], [Section(line[3..], rest.head)] + rest.sections)
                            else Parts(['\n'] + line + rest.head, rest.sections))
  {
    if IsHeading(line) {
      var broken := AddText(st, ['\n']);
      var headed := AddLine(st, line);
      assert "" + rest.head == rest.head;
      assert AddText(headed, rest.head).sections == broken.sections + [Section(line[3..], rest.head)];
      assert broken.sections + [Section(line[3..], rest.head)] + rest.sections
             == broken.sections + ([Section(line[3..], rest.head)] + rest.sections);
    } else {
      AddTextTwice(st, ['\n'] + line, rest.head);
    }
  }

  lemma SectionsAreBlocks(lines: seq<string>)
    requires |lines| > 0
    ensures SplitBody(lines).sections == Blocks(lines).sections
  {
    AddLinesAreBlocks(FirstOf(lines[0]), lines[1..]);
    FirstThenBlocks(lines[0], Blocks(lines[1..]));
  }

  lemma FirstThenBlocks(first: string, rest: Parts)
    ensures Extended(FirstOf(first), rest).sections
            == if IsHeading(first) then [Section(first[3..], rest.head)] + rest.sections else rest.sections
  {
    assert "" + rest.head == rest.head;
  }

  // ---------------------------------------------------------------- ink from a line on

  function InkOfLines(lines: seq<string>): nat {
    if lines == [] then 0 else Ink(lines[0]) + InkOfLines(lines[1..])
  }

  function InkOfSections(sections: seq<Section>): nat {
    if sections == [] then 0
    else 2 + Ink(sections[0].name) + Ink(sections[0].body) + InkOfSections(sections[1..])
  }

  lemma InkOfHeading(line: string)
    requires IsHeading(line)
    ensures Ink(line) == 2 + Ink(line[3..])
  {
    assert line == ['#'] + (['#'] + ([' '] + line[3..]));
    InkCons('#', ['#'] + ([' '] + line[3..]));
    InkCons('#', [' '] + line[3..]);
    InkCons(' ', line[3..]);
  }

  lemma {:induction false} InkOfBlocks(lines: seq<string>)
    ensures InkOfLines(lines) == Ink(Blocks(lines).head) + InkOfSections(Blocks(lines).sections)
  {
    if lines != [] {
      var rest := Blocks(lines[1..]);
      InkOfBlocks(lines[1..]);
      if IsHeading(lines[0]) {
        InkOfHeading(lines[0]);
        assert Blocks(lines).sections[1..] == rest.sections;
        assert ['\n'][1..] == "";
      } else {
        InkConcat(['\n'] + lines[0], rest.head);
        InkCons('\n', lines[0]);
      }
    } else {
    }
  }

  lemma {:induction false} InkFalls(lines: seq<string>, i: nat, j: nat)
    requires i <= j <= |lines|
    ensures InkOfLines(lines[j..]) <= InkOfLines(lines[i..])
    ensures i < j && IsHeading(lines[i]) ==> InkOfLines(lines[j..]) < InkOfLines(lines[i..])
    decreases j - i
  {
    if i < j {
      InkFalls(lines, i + 1, j);
      assert lines[i..][1..] == lines[i + 1..] && lines[i..][0] == lines[i];
      if IsHeading(lines[i]) { InkOfHeading(lines[i]); }
    }
  }

  // ---------------------------------------------------------------- headings and their sections

  /** The sections from line `i` on are the last of all. */
  lemma {:induction false} SuffixFrom(lines: seq<string>, i: nat) returns (j: nat)
    requires i <= |lines|
    ensures j <= |Blocks(lines).sections| && Blocks(lines[i..]).sections == Blocks(lines).sections[j..]
  {
    if i == 0 {
      assert lines[0..] == lines;
      j := 0;
    } else {
      assert lines[1..][i - 1..] == lines[i..];
      j := SuffixFrom(lines[1..], i - 1);
      if IsHeading(lines[0]) {
        assert Blocks(lines).sections[j + 1..] == Blocks(lines[1..]).sections[j..];
        j := j + 1;
      }
    }
  }

  /** Every section starts at a heading line. */
  lemma {:induction false} LineOf(lines: seq<string>, j: nat) returns (i: nat)
    requires j < |Blocks(lines).sections|
    ensures i < |lines| && IsHeading(lines[i]) && Blocks(lines[i..]).sections == Blocks(lines).sections[j..]
  {
    if IsHeading(lines[0]) && j == 0 {
      i := 0;
      assert lines[0..] == lines;
    } else {
      var k := if IsHeading(lines[0]) then j - 1 else j;
      assert Blocks(lines).sections[j..] == Blocks(lines[1..]).sections[k..];
      i := LineOf(lines[1..], k);
      assert lines[1..][i..] == lines[i + 1..];
      i := i + 1;
    }
  }

  /** Lines without headings before the rest add no section. */
  lemma {:induction false} SkipPlain(lines: seq<string>, i: nat, j: nat)
    requires i <= j <= |lines| && forall k :: i <= k < j ==> !IsHeading(lines[k])
    ensures Blocks(lines[i..]).sections == Blocks(lines[j..]).sections
    decreases j - i
  {
    if i < j {
      SkipPlain(lines, i + 1, j);
      assert lines[i..][1..] == lines[i + 1..] && lines[i..][0] == lines[i];
    }
  }

  // ---------------------------------------------------------------- what one hash says about two files

  /** Line `i` without its trailing blanks; past the end there is nothing. */
  function LineAt(lines: seq<string>, i: nat): string {
    if i < |lines| then TrimRight(lines[i]) else ""
  }

  ghost predicate Alike(a: seq<string>, b: seq<string>) {
    forall i: nat :: LineAt(a, i) == LineAt(b, i)
  }

  lemma {:induction false} BlankLineAdded(u: string)
    ensures Split(u + ['\n'], '\n') == Split(u, '\n') + [""]
  {
    if u == "" {
      assert u + ['\n'] == ['\n'] && ['\n'][1..] == "";
    } else {
      assert (u + ['\n'])[1..] == u[1..] + ['\n'];
      BlankLineAdded(u[1..]);
    }
  }

  lemma TrimRightOfTrimmed(s: string)
    requires s == "" || !IsSpace(s[|s| - 1])
    ensures TrimRight(s) == s
  {
  }

  predicate EndsWell(t: string) {
    t != "" ==> t[|t| - 1] == '\n' || !IsSpace(t[|t| - 1])
  }

  /** Trimming the end of a tidy text drops empty lines and nothing else. */
  lemma {:induction false} LinesOfTrimmed(t: string, i: nat)
    requires Tidy(t) && EndsWell(t)
    ensures LineAt(Split(t, '\n'), i) == LineAt(Split(TrimRight(t), '\n'), i)
  {
    if t != "" && IsSpace(t[|t| - 1]) {
      var front := t[..|t| - 1];
      assert t == front + ['\n'];
      BlankLineAdded(front);
      assert Tidy(front) && EndsWell(front);
      LinesOfTrimmed(front, i);
    } else {
      TrimRightOfTrimmed(t);
    }
  }

  lemma {:induction false} JoinEndsWell(lines: seq<string>)
    requires |lines| > 0 && forall l :: l in lines ==> l == "" || !IsSpace(l[|l| - 1])
    ensures EndsWell(Join(lines, '\n'))
  {
    assert lines[0] in lines;
    if |lines| > 1 {
      JoinEndsWell(lines[1..]);
      var t := lines[0] + ['\n'] + Join(lines[1..], '\n');
      assert t == Join(lines, '\n');
    }
  }

  lemma TrimmedLines(lines: seq<string>)
    requires |lines| > 0 && Plain(lines)
    ensures var trimmed := TrimLines(lines);
            && Tidy(Join(trimmed, '\n')) && EndsWell(Join(trimmed, '\n')) && Split(Join(trimmed, '\n'), '\n') == trimmed
  {
    var trimmed := TrimLines(lines);
    forall l | l in trimmed
      ensures (l == "" || !IsSpace(l[|l| - 1])) && TrimRight(l) == l && '\n' !in l && '\r' !in l
    {
      var i :| 0 <= i < |lines| && l == TrimRight(lines[i]);
      assert lines[i] in lines;
      TrimRightOfTrimmed(l);
    }
    JoinedIsTidy(trimmed);
    JoinEndsWell(trimmed);
    JoinThenSplit(trimmed, '\n');
  }

  /** A document that starts in ink tells every line of its file, but for trailing blanks. */
  lemma DocumentTellsLines(lines: seq<string>, document: string, i: nat)
    requires |lines| > 0 && Plain(lines) && lines[0] != "" && !IsSpace(lines[0][0]) && !IsSpace(lines[0][|lines[0]| - 1])
    requires document == Trim(Join(TrimLines(lines), '\n'))
    ensures LineAt(lines, i) == LineAt(Split(document, '\n'), i)
  {
    TrimmedLines(lines);
    TrimRightOfTrimmed(lines[0]);
    TidyTextTellsLines(TrimLines(lines), Join(TrimLines(lines), '\n'), document, i);
    TrimmedLineAt(lines, TrimLines(lines), i);
  }

  lemma TidyTextTellsLines(lines: seq<string>, t: string, document: string, i: nat)
    requires |lines| > 0 && lines[0] != "" && !IsSpace(lines[0][0]) && t == Join(lines, '\n')
    requires Tidy(t) && EndsWell(t) && Split(t, '\n') == lines && document == Trim(t)
    ensures LineAt(lines, i) == LineAt(Split(document, '\n'), i)
  {
    JoinStartsInInk(lines);
    StartsInInk(t);
    LinesOfTrimmed(t, i);
  }

  lemma TrimmedLineAt(lines: seq<string>, trimmed: seq<string>, i: nat)
    requires trimmed == TrimLines(lines)
    ensures LineAt(trimmed, i) == LineAt(lines, i)
  {
    if i < |lines| { TrimRightOfTrimmed(trimmed[i]); }
  }

  lemma JoinStartsInInk(lines: seq<string>)
    requires |lines| > 0 && lines[0] != "" && !IsSpace(lines[0][0])
    ensures Join(lines, '\n') != "" && !IsSpace(Join(lines, '\n')[0])
  {
  }

  lemma StartsInInk(t: string)
    requires t != "" && !IsSpace(t[0])
    ensures Trim(t) == TrimRight(t)
  {
  }

  lemma SameDocumentAlike(a: seq<string>, b: seq<string>)
    requires |a| > 0 && |b| > 0 && Plain(a) && Plain(b) && a[0] == b[0] == "---"
    requires Trim(Join(TrimLines(a), '\n')) == Trim(Join(TrimLines(b), '\n'))
    ensures Alike(a, b)
  {
    var document := Trim(Join(TrimLines(a), '\n'));
    forall i: nat ensures LineAt(a, i) == LineAt(b, i) {
      DocumentTellsLines(a, document, i);
      DocumentTellsLines(b, document, i);
    }
  }

  // ---------------------------------------------------------------- alike files

  function From(lines: seq<string>, i: nat): seq<string> {
    if i <= |lines| then lines[i..] else []
  }

  lemma FromStep(lines: seq<string>, i: nat)
    ensures i < |lines| ==> From(lines, i) == [lines[i]] + From(lines, i + 1)
    ensures i >= |lines| ==> From(lines, i) == [] == From(lines, i + 1)
  {
  }

  /** Alike files have as much ink from any line on. */
  lemma {:induction false} AlikeInk(a: seq<string>, b: seq<string>, i: nat)
    requires Alike(a, b)
    ensures InkOfLines(From(a, i)) == InkOfLines(From(b, i))
    decreases |a| + |b| - i
  {
    if i < |a| || i < |b| {
      AlikeInk(a, b, i + 1);
      SameInkAt(a, b, i, LineAt(a, i), LineAt(b, i));
    } else {
      assert From(a, i) == [] == From(b, i);
    }
  }

  lemma SameInkAt(a: seq<string>, b: seq<string>, i: nat, x: string, y: string)
    requires x == LineAt(a, i) && y == LineAt(b, i) && x == y
    requires InkOfLines(From(a, i + 1)) == InkOfLines(From(b, i + 1))
    ensures InkOfLines(From(a, i)) == InkOfLines(From(b, i))
  {
    InkAt(a, i);
    InkAt(b, i);
  }

  lemma InkAt(lines: seq<string>, i: nat)
    ensures InkOfLines(From(lines, i)) == Ink(LineAt(lines, i)) + InkOfLines(From(lines, i + 1))
  {
    FromStep(lines, i);
    if i < |lines| {
      InkTrimRight(lines[i]);
      assert ([lines[i]] + From(lines, i + 1))[1..] == From(lines, i + 1);
    }
  }

  lemma {:induction false} InkFallsFrom(lines: seq<string>, i: nat, j: nat)
    requires i < j && HeadingAt(lines, i)
    ensures InkOfLines(From(lines, j)) < InkOfLines(From(lines, i))
  {
    if j <= |lines| {
      InkFalls(lines, i, j);
    } else {
      InkFalls(lines, i, |lines|);
      assert lines[|lines|..] == [] == From(lines, j);
    }
  }

  // ---------------------------------------------------------------- the same bodies

  /** A text with its lines and its end trimmed. */
  function Tail(u: string): string {
    TrimRight(Tidied(u))
  }

  lemma {:induction false} TrimRightConcat(x: string, w: string)
    ensures TrimRight(x + w) == if TrimRight(w) == "" then TrimRight(x) else x + TrimRight(w)
  {
    if w == "" {
      assert x + w == x;
    } else if IsSpace(w[|w| - 1]) {
      assert (x + w)[..|x + w| - 1] == x + w[..|w| - 1];
      TrimRightConcat(x, w[..|w| - 1]);
    } else {
      assert (x + w)[|x + w| - 1] == w[|w| - 1];
    }
  }

  predicate AtBreak(h: string) {
    h == "" || h[0] == '\n'
  }

  lemma TidiedLine(l: string, h: string)
    requires '\n' !in l && AtBreak(h)
    ensures Tidied(['\n'] + l + h) == ['\n'] + TrimRight(l) + Tidied(h)
  {
    assert ['\n'] + l + h == ['\n'] + (l + h);
    TidiedBreak(l + h);
    TidiedLineAlone(l, h, l + h);
  }

  lemma TidiedLineAlone(l: string, h: string, both: string)
    requires '\n' !in l && AtBreak(h) && both == l + h
    ensures Tidied(both) == TrimRight(l) + Tidied(h)
  {
    if h == "" {
      assert both == l;
      TidiedAlone(l);
      TidiedOfNothing();
    } else {
      var v := h[1..];
      assert h == ['\n'] + v && both == l + ['\n'] + v;
      TidiedBeforeBreak(l, v);
    }
  }

  lemma TidiedAlone(l: string)
    requires '\n' !in l
    ensures Tidied(l) == TrimRight(l)
  {
    SplitAfter(l, '\n', "");
    assert TrimLines([l]) == [TrimRight(l)];
  }

  lemma TidiedBeforeBreak(l: string, v: string)
    requires '\n' !in l
    ensures Tidied(l + ['\n'] + v) == TrimRight(l) + Tidied(['\n'] + v)
  {
    SplitAfter(l, '\n', v);
    TidiedFirst(l, Split(v, '\n'));
    TidiedBreak(v);
  }

  /** The tail of a line and what follows, from the tail of what follows. */
  function Longer(line: string, tail: string): string {
    if tail == "" then TrimRight(['\n'] + line) else ['\n'] + line + tail
  }

  lemma TailOfLine(l: string, h: string)
    requires '\n' !in l && AtBreak(h)
    ensures Tail(['\n'] + l + h) == Longer(TrimRight(l), Tail(h))
  {
    TidiedLine(l, h);
    TrimRightConcat(['\n'] + TrimRight(l), Tidied(h));
  }

  lemma {:induction false} TrimAfterTrimRight(t: string)
    ensures Trim(TrimRight(t)) == Trim(t)
  {
    if t != "" && IsSpace(t[|t| - 1]) {
      var front := t[..|t| - 1];
      TrimAfterTrimRight(front);
      BlankDropped(t, front, TrimRight(t));
    } else {
      TrimRightOfTrimmed(t);
    }
  }

  lemma BlankDropped(t: string, front: string, r: string)
    requires t != "" && IsSpace(t[|t| - 1]) && front == t[..|t| - 1] && Trim(r) == Trim(front)
    ensures Trim(r) == Trim(t)
  {
    assert t == front + [t[|t| - 1]];
    TrimThenBlank(front, t[|t| - 1]);
  }

  lemma TailTellsText(u: string)
    requires '\r' !in u
    ensures Normalize(u) == Trim(Tail(u))
  {
    UnifyKeepsUnified(u);
    TrimAfterTrimRight(Tidied(u));
  }

  predicate HeadingAt(lines: seq<string>, i: nat) {
    i < |lines| && IsHeading(lines[i])
  }

  lemma {:induction false} HeadsArePlain(lines: seq<string>)
    requires Plain(lines)
    ensures AtBreak(Blocks(lines).head) && '\r' !in Blocks(lines).head
  {
    if lines != [] {
      assert lines[0] in lines;
      assert Plain(lines[1..]);
      HeadsArePlain(lines[1..]);
    } else {
    }
  }

  lemma FromIsPlain(lines: seq<string>, i: nat)
    requires Plain(lines)
    ensures Plain(From(lines, i)) && (i < |lines| ==> '\n' !in lines[i])
    ensures AtBreak(Blocks(From(lines, i)).head) && '\r' !in Blocks(From(lines, i)).head
  {
    if i < |lines| { assert lines[i] in lines; }
    HeadsArePlain(From(lines, i));
  }

  lemma BlocksAt(lines: seq<string>, i: nat)
    ensures i >= |lines| ==> Blocks(From(lines, i)) == Parts("", []) == Blocks(From(lines, i + 1))
    ensures i < |lines| ==>
              var rest := Blocks(From(lines, i + 1));
              Blocks(From(lines, i)) == if IsHeading(lines[i]) then Parts(['\n'], [Section(lines[i][3..], rest.head)] + rest.sections)
                                        else Parts(['\n'] + lines[i] + rest.head, rest.sections)
  {
    FromStep(lines, i);
    if i < |lines| { assert From(lines, i)[1..] == From(lines, i + 1); }
  }

  lemma PlainLineTail(lines: seq<string>, i: nat)
    requires Plain(lines) && !HeadingAt(lines, i)
    ensures Tail(Blocks(From(lines, i)).head) == Longer(LineAt(lines, i), Tail(Blocks(From(lines, i + 1)).head))
    ensures Blocks(From(lines, i)).sections == Blocks(From(lines, i + 1)).sections
  {
    BlocksAt(lines, i);
    FromIsPlain(lines, i);
    FromIsPlain(lines, i + 1);
    if i < |lines| {
      TailOfLine(lines[i], Blocks(From(lines, i + 1)).head);
    } else {
      TidiedOfNothing();
      assert ['\n'] + "" == ['\n'] && ['\n'][..0] == "";
    }
  }

  // ---------------------------------------------------------------- ids

  function Ids(runbook: string, sections: seq<Section>, textOf: Section -> string): (r: seq<ChunkId>)
    ensures |r| == |sections|
    ensures forall i :: 0 <= i < |r| ==> r[i] == ChunkId(runbook, sections[i].name, textOf(sections[i]))
  {
    seq(|sections|, i requires 0 <= i < |sections| => ChunkId(runbook, sections[i].name, textOf(sections[i])))
  }

  /** Sections of one name and one text have bodies with as much ink. */
  ghost predicate TellsInk(textOf: Section -> string) {
    forall p: Section, q: Section :: p.name == q.name && textOf(p) == textOf(q) ==> Ink(p.body) == Ink(q.body)
  }

  /** Each text has the ink of its section's body and, besides, as much as goes with the name. */
  ghost predicate InkByName(textOf: Section -> string, ofName: string -> nat) {
    forall p: Section :: Ink(textOf(p)) == ofName(p.name) + Ink(p.body)
  }

  lemma ByNameTells(textOf: Section -> string, ofName: string -> nat)
    requires InkByName(textOf, ofName)
    ensures TellsInk(textOf)
  {
  }

  function HeadInk(title: string, dash: string, gap: string): string -> nat {
    (name: string) => Ink(title + dash + name + gap)
  }

  lemma TextsTellInk(title: string)
    ensures TellsInk(TextOf(title))
  {
    var dash, gap := " \U{2014} ", "\n\n";
    forall p: Section ensures Ink(TextOf(title)(p)) == HeadInk(title, dash, gap)(p.name) + Ink(p.body) {
      InkOfChunk(title, p.name, p.body, title + dash + p.name + gap);
    }
    ByNameTells(TextOf(title), HeadInk(title, dash, gap));
  }

  lemma {:induction false} SameIdsSameInk(runbook: string, x: seq<Section>, y: seq<Section>, textOf: Section -> string)
    requires TellsInk(textOf) && Ids(runbook, x, textOf) == Ids(runbook, y, textOf)
    ensures InkOfSections(x) == InkOfSections(y)
  {
    assert |x| == |Ids(runbook, x, textOf)| == |y|;
    if x != [] {
      assert Ids(runbook, x, textOf)[0] == Ids(runbook, y, textOf)[0];
      IdsFrom(runbook, x, textOf, 1);
      IdsFrom(runbook, y, textOf, 1);
      SameIdsSameInk(runbook, x[1..], y[1..], textOf);
    } else {
    }
  }

  lemma IdsFrom(runbook: string, sections: seq<Section>, textOf: Section -> string, j: nat)
    requires j <= |sections|
    ensures Ids(runbook, sections[j..], textOf) == Ids(runbook, sections, textOf)[j..]
  {
  }

  // ---------------------------------------------------------------- ids tell where the headings are

  /** The section a heading starts, by its place among all from line `m` on. */
  lemma SectionAt(lines: seq<string>, m: nat, i: nat) returns (j: nat)
    requires m <= i && HeadingAt(lines, i)
    ensures var sections := Blocks(From(lines, m)).sections;
            && j < |sections| && sections[j].name == lines[i][3..]
            && InkOfLines(From(lines, i)) == InkOfSections(sections[j..])
  {
    j := SuffixFrom(From(lines, m), i - m);
    assert From(lines, m)[i - m..] == From(lines, i);
    BlocksAt(lines, i);
    InkFromHeading(lines, i);
  }

  /** And back: the line a section starts at. */
  lemma HeadingOf(lines: seq<string>, m: nat, j: nat) returns (i: nat)
    requires j < |Blocks(From(lines, m)).sections|
    ensures m <= i && HeadingAt(lines, i)
    ensures var sections := Blocks(From(lines, m)).sections;
            && sections[j].name == lines[i][3..]
            && InkOfLines(From(lines, i)) == InkOfSections(sections[j..])
  {
    var p := LineOf(From(lines, m), j);
    i := m + p;
    assert From(lines, m)[p..] == From(lines, i) && From(lines, m)[p] == lines[i];
    BlocksAt(lines, i);
    InkFromHeading(lines, i);
  }

  /** Alike files with the same ids have a heading of the one at the same line of the other. */
  lemma HeadingShared(a: seq<string>, i: nat, m: nat, b: seq<string>, n: nat, runbook: string,
                      textOf: Section -> string)
    requires Alike(a, b) && m <= i && HeadingAt(a, i) && TellsInk(textOf)
    requires Ids(runbook, Blocks(From(a, m)).sections, textOf) == Ids(runbook, Blocks(From(b, n)).sections, textOf)
    ensures n <= i < |b| && b[i] == a[i]
  {
    var x, y := Blocks(From(a, m)).sections, Blocks(From(b, n)).sections;
    var j := SectionAt(a, m, i);
    SameFromThere(runbook, x, y, j, textOf);
    var k := HeadingOf(b, n, j);
    SamePlace(a, i, b, k);
    SameHeadingLine(a[i], b[i]);
  }

  lemma SameFromThere(runbook: string, x: seq<Section>, y: seq<Section>, j: nat, textOf: Section -> string)
    requires TellsInk(textOf) && Ids(runbook, x, textOf) == Ids(runbook, y, textOf) && j < |x|
    ensures |x| == |y| && x[j].name == y[j].name && InkOfSections(x[j..]) == InkOfSections(y[j..])
  {
    assert |x| == |Ids(runbook, x, textOf)| == |y|;
    assert Ids(runbook, x, textOf)[j] == Ids(runbook, y, textOf)[j];
    IdsFrom(runbook, x, textOf, j);
    IdsFrom(runbook, y, textOf, j);
    SameIdsSameInk(runbook, x[j..], y[j..], textOf);
  }

  lemma InkFromHeading(lines: seq<string>, i: nat)
    requires HeadingAt(lines, i)
    ensures InkOfLines(From(lines, i)) == InkOfSections(Blocks(From(lines, i)).sections)
  {
    InkOfBlocks(From(lines, i));
    BlocksAt(lines, i);
    assert ['\n'][1..] == "";
  }

  lemma SamePlace(a: seq<string>, i: nat, b: seq<string>, j: nat)
    requires Alike(a, b) && HeadingAt(a, i) && HeadingAt(b, j)
    requires InkOfLines(From(a, i)) == InkOfLines(From(b, j))
    ensures i == j
  {
    AlikeInk(a, b, i);
    AlikeInk(a, b, j);
    if i < j { InkFallsFrom(a, i, j); }
    if j < i { InkFallsFrom(b, j, i); }
  }

  lemma SameHeadingLine(x: string, y: string)
    requires IsHeading(x) && IsHeading(y) && x[3..] == y[3..]
    ensures x == y
  {
    assert x == ['#', '#', ' '] + x[3..] && y == ['#', '#', ' '] + y[3..];
  }

  // ---------------------------------------------------------------- and headings tell the ids

  /** Sections of one name whose bodies differ in blanks at line ends and at their own end have one text. */
  ghost predicate BlindToBlanks(textOf: Section -> string) {
    forall p: Section, q: Section ::
      p.name == q.name && '\r' !in p.body && '\r' !in q.body && Tail(p.body) == Tail(q.body) ==> textOf(p) == textOf(q)
  }

  lemma TextsAreBlindToBlanks(title: string)
    ensures BlindToBlanks(TextOf(title))
  {
    forall p: Section, q: Section |
      p.name == q.name && '\r' !in p.body && '\r' !in q.body && Tail(p.body) == Tail(q.body)
      ensures TextOf(title)(p) == TextOf(title)(q)
    {
      SameTailSameText(title, p.name, p.body, q.body);
    }
  }

  lemma SameTailSameText(title: string, name: string, x: string, y: string)
    requires '\r' !in x && '\r' !in y && Tail(x) == Tail(y)
    ensures ChunkText(title, name, x) == ChunkText(title, name, y)
  {
    TailTellsText(x);
    TailTellsText(y);
  }

  /** A heading of either is the same line of the other. */
  ghost predicate SharedAt(a: seq<string>, b: seq<string>, i: nat) {
    HeadingAt(a, i) || HeadingAt(b, i) ==> i < |a| && i < |b| && a[i] == b[i]
  }

  lemma {:induction false} AgreeFrom(a: seq<string>, b: seq<string>, i: nat, runbook: string, textOf: Section -> string)
    requires Plain(a) && Plain(b) && Alike(a, b) && BlindToBlanks(textOf)
    requires forall j: nat :: j >= i ==> SharedAt(a, b, j)
    ensures Tail(Blocks(From(a, i)).head) == Tail(Blocks(From(b, i)).head)
    ensures Ids(runbook, Blocks(From(a, i)).sections, textOf) == Ids(runbook, Blocks(From(b, i)).sections, textOf)
    decreases |a| + |b| - i
  {
    if i < |a| || i < |b| {
      AgreeFrom(a, b, i + 1, runbook, textOf);
      assert SharedAt(a, b, i);
      if HeadingAt(a, i) {
        HeadingAgrees(a, b, i, runbook, textOf);
      } else {
        PlainLineAgrees(a, b, i);
      }
    } else {
      BlocksAt(a, i);
      BlocksAt(b, i);
    }
  }

  lemma PlainLineAgrees(a: seq<string>, b: seq<string>, i: nat)
    requires Plain(a) && Plain(b) && Alike(a, b) && !HeadingAt(a, i) && !HeadingAt(b, i)
    requires Tail(Blocks(From(a, i + 1)).head) == Tail(Blocks(From(b, i + 1)).head)
    ensures Tail(Blocks(From(a, i)).head) == Tail(Blocks(From(b, i)).head)
    ensures Blocks(From(a, i)).sections == Blocks(From(a, i + 1)).sections
    ensures Blocks(From(b, i)).sections == Blocks(From(b, i + 1)).sections
  {
    PlainLineTail(a, i);
    PlainLineTail(b, i);
    assert LineAt(a, i) == LineAt(b, i);
  }

  lemma HeadingAgrees(a: seq<string>, b: seq<string>, i: nat, runbook: string, textOf: Section -> string)
    requires Plain(a) && Plain(b) && BlindToBlanks(textOf) && HeadingAt(a, i) && i < |b| && a[i] == b[i]
    requires Tail(Blocks(From(a, i + 1)).head) == Tail(Blocks(From(b, i + 1)).head)
    requires Ids(runbook, Blocks(From(a, i + 1)).sections, textOf) == Ids(runbook, Blocks(From(b, i + 1)).sections, textOf)
    ensures Blocks(From(a, i)).head == Blocks(From(b, i)).head
    ensures Ids(runbook, Blocks(From(a, i)).sections, textOf) == Ids(runbook, Blocks(From(b, i)).sections, textOf)
  {
    var p, q := Blocks(From(a, i + 1)), Blocks(From(b, i + 1));
    BlocksAt(a, i);
    BlocksAt(b, i);
    FromIsPlain(a, i + 1);
    FromIsPlain(b, i + 1);
    IdsOfCons(runbook, Section(a[i][3..], p.head), p.sections, textOf);
    IdsOfCons(runbook, Section(b[i][3..], q.head), q.sections, textOf);
  }

  lemma IdsOfCons(runbook: string, first: Section, rest: seq<Section>, textOf: Section -> string)
    ensures Ids(runbook, [first] + rest, textOf)
            == [ChunkId(runbook, first.name, textOf(first))] + Ids(runbook, rest, textOf)
  {
  }

  // ---------------------------------------------------------------- so they agree exactly there

  /** Below their frontmatter, which ends at `m` and `n`, the files have the same heading lines. */
  ghost predicate SameHeadings(a: seq<string>, m: nat, b: seq<string>, n: nat) {
    forall i: nat :: (m < i && HeadingAt(a, i)) || (n < i && HeadingAt(b, i)) ==>
      m < i < |a| && n < i < |b| && a[i] == b[i]
  }

  lemma IdsTellHeadings(a: seq<string>, m: nat, b: seq<string>, n: nat, runbook: string, textOf: Section -> string)
    requires Alike(a, b) && TellsInk(textOf)
    requires Ids(runbook, Blocks(From(a, m + 1)).sections, textOf) == Ids(runbook, Blocks(From(b, n + 1)).sections, textOf)
    ensures SameHeadings(a, m, b, n)
  {
    HeadingsShared(a, m, b, n, runbook, textOf);
    HeadingsShared(b, n, a, m, runbook, textOf);
  }

  lemma HeadingsShared(a: seq<string>, m: nat, b: seq<string>, n: nat, runbook: string, textOf: Section -> string)
    requires Alike(a, b) && TellsInk(textOf)
    requires Ids(runbook, Blocks(From(a, m + 1)).sections, textOf) == Ids(runbook, Blocks(From(b, n + 1)).sections, textOf)
    ensures forall i: nat :: m < i && HeadingAt(a, i) ==> n < i < |b| && b[i] == a[i]
  {
    forall i: nat | m < i && HeadingAt(a, i) ensures n < i < |b| && b[i] == a[i] {
      HeadingShared(a, i, m + 1, b, n + 1, runbook, textOf);
    }
  }

  lemma HeadingsTellIds(a: seq<string>, m: nat, b: seq<string>, n: nat, runbook: string, textOf: Section -> string)
    requires Plain(a) && Plain(b) && Alike(a, b) && BlindToBlanks(textOf) && SameHeadings(a, m, b, n)
    requires m < |a| && a[m] == "---" && n < |b| && b[n] == "---"
    ensures Ids(runbook, Blocks(From(a, m + 1)).sections, textOf) == Ids(runbook, Blocks(From(b, n + 1)).sections, textOf)
  {
    var k := if m < n then n else m;
    RuleInBoth(a, m, b, n);
    AgreeBelow(a, m, b, n, k, runbook, textOf);
    NothingBefore(a, m, b, n, k);
    NothingBefore(b, n, a, m, k);
  }

  lemma AgreeBelow(a: seq<string>, m: nat, b: seq<string>, n: nat, k: nat, runbook: string, textOf: Section -> string)
    requires Plain(a) && Plain(b) && Alike(a, b) && BlindToBlanks(textOf) && SameHeadings(a, m, b, n) && m <= k && n <= k
    ensures Ids(runbook, Blocks(From(a, k + 1)).sections, textOf) == Ids(runbook, Blocks(From(b, k + 1)).sections, textOf)
  {
    forall j: nat | j >= k + 1 ensures SharedAt(a, b, j) {}
    AgreeFrom(a, b, k + 1, runbook, textOf);
  }

  /** Where only one file has its body begun, there is no heading. */
  lemma NothingBefore(a: seq<string>, m: nat, b: seq<string>, n: nat, k: nat)
    requires SameHeadings(a, m, b, n) && k == (if m < n then n else m) && k < |a|
    ensures Blocks(From(a, m + 1)).sections == Blocks(From(a, k + 1)).sections
  {
    forall i | m + 1 <= i < k + 1 ensures !IsHeading(a[i]) {
      assert m < i && HeadingAt(a, i) ==> n < i;
    }
    SkipPlain(a, m + 1, k + 1);
  }

  lemma RuleInBoth(a: seq<string>, m: nat, b: seq<string>, n: nat)
    requires Alike(a, b) && m < |a| && a[m] == "---" && n < |b| && b[n] == "---"
    ensures n < |a| && m < |b|
  {
    TrimRightOfTrimmed("---");
    assert LineAt(a, n) == LineAt(b, n) && LineAt(a, m) == LineAt(b, m);
  }

  // ---------------------------------------------------------------- files

  function LinesOf(source: string): (lines: seq<string>)
    ensures |lines| > 0
  {
    Split(UnifyLineEndings(source), '\n')
  }

  /** The frontmatter as parsed, and the line it ends at. */
  function Front(lines: seq<string>, yaml: Yaml): (r: Option<(Frontmatter, nat)>)
    requires |lines| > 0
    ensures r.Some? <==> ParseFrontmatter(lines, yaml).Ok?
    ensures r.Some? ==> r.value.1 < |lines| && lines[0] == lines[r.value.1] == "---"
    ensures r.Some? ==> ParseFrontmatter(lines, yaml).value == (r.value.0, From(lines, r.value.1 + 1))
  {
    match ParseFrontmatter(lines, yaml)
    case Err(_) => None
    case Ok((front, _)) => Some((front, FrontmatterEnd(lines, 2).value))
  }

  /** The ids of a file's chunks; none when it has no chunks. */
  function ChunkIds(lines: seq<string>, yaml: Yaml): (r: seq<ChunkId>)
    requires |lines| > 0
  {
    match ChunkLines(lines, yaml)
    case Err(_) => []
    case Ok(chunks) => IdsOf(chunks)
  }

  function IdsOf(chunks: seq<Chunk>): (r: seq<ChunkId>)
    ensures |r| == |chunks| && forall i :: 0 <= i < |r| ==> r[i] == chunks[i].id
  {
    seq(|chunks|, i requires 0 <= i < |chunks| => chunks[i].id)
  }

  lemma IdsOfSections(front: Frontmatter, sections: seq<Section>, textOf: Section -> string)
    ensures IdsOf(ChunksOf(front, sections, textOf)) == Ids(front.runbookId, sections, textOf)
  {
  }

  /** Chunking, given what the lines parse to. */
  lemma ChunkedLines(lines: seq<string>, yaml: Yaml, front: Frontmatter, body: seq<string>, textOf: Section -> string)
    requires |lines| > 0 && |body| > 0 && ParseFrontmatter(lines, yaml) == Ok((front, body)) && textOf == TextOf(front.title)
    ensures ChunkIds(lines, yaml) == IdsOf(ChunksOf(front, SplitBody(body).sections, textOf))
  {
  }

  lemma ChunkIdsAreIds(lines: seq<string>, yaml: Yaml, front: Frontmatter, m: nat, textOf: Section -> string)
    requires |lines| > 0 && Front(lines, yaml) == Some((front, m)) && textOf == TextOf(front.title)
    ensures ChunkIds(lines, yaml) == Ids(front.runbookId, Blocks(From(lines, m + 1)).sections, textOf)
  {
    var body := From(lines, m + 1);
    SectionsAreBlocks(body);
    ChunkedLines(lines, yaml, front, body, textOf);
    IdsOfSections(front, Blocks(body).sections, textOf);
  }

  lemma LinesArePlain(source: string)
    ensures Plain(LinesOf(source))
  {
    var u := UnifyLineEndings(source);
    SplitThenJoin(u, '\n');
    PiecesAreFree(u, '\n');
    forall l | l in LinesOf(source) ensures '\n' !in l && '\r' !in l {
      var i :| 0 <= i < |LinesOf(source)| && LinesOf(source)[i] == l;
      NoNewChars(Split(u, '\n'), u, i);
    }
  }

  function SectionsOf(lines: seq<string>, m: nat): seq<Section> {
    Blocks(From(lines, m + 1)).sections
  }

  /** Section for section the same name and the same body in normal form. */
  predicate SameSections(x: seq<Section>, y: seq<Section>) {
    |x| == |y| && forall j :: 0 <= j < |x| ==> SameSection(x[j], y[j])
  }

  predicate SameSection(p: Section, q: Section) {
    p.name == q.name && Normalize(p.body) == Normalize(q.body)
  }

  /** Whatever their hashes, files with the same frontmatter have the same chunk ids if and only if they
      have the same sections, the bodies taken in normal form. */
  lemma SameSectionsSameIds(a: seq<string>, b: seq<string>, yaml: Yaml, front: Frontmatter, m: nat, n: nat)
    requires |a| > 0 && |b| > 0 && Front(a, yaml) == Some((front, m)) && Front(b, yaml) == Some((front, n))
    ensures ChunkIds(a, yaml) == ChunkIds(b, yaml) <==> SameSections(SectionsOf(a, m), SectionsOf(b, n))
  {
    var textOf := TextOf(front.title);
    ChunkIdsAreIds(a, yaml, front, m, textOf);
    ChunkIdsAreIds(b, yaml, front, n, textOf);
    TextsTellBodies(front.title);
    SectionsTellIds(front.runbookId, SectionsOf(a, m), SectionsOf(b, n), textOf);
  }

  /** Sections of one name have one text exactly when their bodies have one normal form. */
  ghost predicate TellsBody(textOf: Section -> string) {
    forall p: Section, q: Section :: p.name == q.name ==> (textOf(p) == textOf(q) <==> Normalize(p.body) == Normalize(q.body))
  }

  lemma TextsTellBodies(title: string)
    ensures TellsBody(TextOf(title))
  {
    forall p: Section, q: Section | p.name == q.name
      ensures TextOf(title)(p) == TextOf(title)(q) <==> Normalize(p.body) == Normalize(q.body)
    {
      TextTellsBody(title, p.name, p.body, q.body);
    }
  }

  lemma SectionsTellIds(runbook: string, x: seq<Section>, y: seq<Section>, textOf: Section -> string)
    requires TellsBody(textOf)
    ensures Ids(runbook, x, textOf) == Ids(runbook, y, textOf) <==> SameSections(x, y)
  {
    if Ids(runbook, x, textOf) == Ids(runbook, y, textOf) {
      assert |x| == |Ids(runbook, x, textOf)| == |y|;
      forall j | 0 <= j < |x| ensures SameSection(x[j], y[j]) {
        assert Ids(runbook, x, textOf)[j] == Ids(runbook, y, textOf)[j];
      }
    }
  }

  /** Two files with one document hash and the same frontmatter have the same chunk ids if and only if
      they have the same heading lines, character for character, in the same places. */
  lemma SameHashSameIds(a: string, b: string, yaml: Yaml, front: Frontmatter, m: nat, n: nat)
    requires Document(a) == Document(b)
    requires Front(LinesOf(a), yaml) == Some((front, m)) && Front(LinesOf(b), yaml) == Some((front, n))
    ensures ChunkIds(LinesOf(a), yaml) == ChunkIds(LinesOf(b), yaml) <==> SameHeadings(LinesOf(a), m, LinesOf(b), n)
  {
    var x, y, textOf := LinesOf(a), LinesOf(b), TextOf(front.title);
    LinesArePlain(a);
    LinesArePlain(b);
    SameDocumentAlike(x, y);
    ChunkIdsAreIds(x, yaml, front, m, textOf);
    ChunkIdsAreIds(y, yaml, front, n, textOf);
    TextsTellInk(front.title);
    TextsAreBlindToBlanks(front.title);
    if SameHeadings(x, m, y, n) {
      HeadingsTellIds(x, m, y, n, front.runbookId, textOf);
    }
    if ChunkIds(x, yaml) == ChunkIds(y, yaml) {
      IdsTellHeadings(x, m, y, n, front.runbookId, textOf);
    }
  }
}
