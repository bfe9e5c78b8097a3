/** Runbook markdown to content-addressed chunks (apps/knowledge-service chunking.py). */
module Chunking {
  import opened Text
  import opened Wrappers

  // ---------------------------------------------------------------- line endings

  function ReplaceCrLf(s: string): string {
    if s == "" then ""
    else if s[0] == '\r' && |s| > 1 && s[1] == '\n' then ['\n'] + ReplaceCrLf(s[2..])
    else [s[0]] + ReplaceCrLf(s[1..])
  }

  function ReplaceCr(s: string): (r: string)
    ensures |r| == |s| && '\r' !in r && forall i :: 0 <= i < |s| ==> r[i] == if s[i] == '\r' then '\n' else s[i]
  {
    if s == "" then "" else [if s[0] == '\r' then '\n' else s[0]] + ReplaceCr(s[1..])
  }

  function UnifyLineEndings(text: string): (r: string)
    ensures '\r' !in r
  {
    ReplaceCr(ReplaceCrLf(text))
  }

  /** Reading from the left: CR LF and a lone CR each become LF, and all else stays. */
  lemma UnifyReads(c: char, rest: string)
    ensures UnifyLineEndings("") == ""
    ensures UnifyLineEndings(['\r', '\n'] + rest) == ['\n'] + UnifyLineEndings(rest)
    ensures c != '\r' ==> UnifyLineEndings([c] + rest) == [c] + UnifyLineEndings(rest)
    ensures rest == "" || rest[0] != '\n' ==> UnifyLineEndings(['\r'] + rest) == ['\n'] + UnifyLineEndings(rest)
  {
    assert (['\r', '\n'] + rest)[2..] == rest && ([c] + rest)[1..] == rest && (['\r'] + rest)[1..] == rest;
    assert (['\n'] + ReplaceCrLf(rest))[1..] == ReplaceCrLf(rest) == ([c] + ReplaceCrLf(rest))[1..];
    assert (['\r'] + ReplaceCrLf(rest))[1..] == ReplaceCrLf(rest);
  }

  function ToCrLf(s: string): string {
    if s == "" then "" else (if s[0] == '\n' then ['\r', '\n'] else [s[0]]) + ToCrLf(s[1..])
  }

  predicate HasCrLf(s: string) {
    exists i :: 0 <= i < |s| - 1 && s[i] == '\r' && s[i + 1] == '\n'
  }

  lemma {:induction false} UnifyKeepsUnified(s: string)
    requires '\r' !in s
    ensures UnifyLineEndings(s) == s
  {
    if s != "" {
      UnifyKeepsUnified(s[1..]);
      assert s == [s[0]] + s[1..];
    } else {
    }
  }

  lemma {:induction false} CrLfUndone(s: string)
    ensures ReplaceCrLf(ToCrLf(s)) == s
  {
    if s != "" {
      CrLfUndone(s[1..]);
      var rest := ToCrLf(s[1..]);
      if s[0] == '\n' {
        assert (['\r', '\n'] + rest)[2..] == rest;
      } else {
        assert ([s[0]] + rest)[1..] == rest;
        assert rest != "" ==> rest[0] != '\n';
      }
    } else {
    }
  }

  lemma {:induction false} CrLfShortens(s: string)
    ensures |ReplaceCrLf(s)| <= |s|
    ensures HasCrLf(s) ==> |ReplaceCrLf(s)| < |s|
    ensures !HasCrLf(s) ==> ReplaceCrLf(s) == s
  {
    if s != "" {
      CrLfShortens(s[1..]);
      if |s| > 1 && s[0] == '\r' && s[1] == '\n' {
        CrLfShortens(s[2..]);
        assert HasCrLf(s);
      } else {
        assert s == [s[0]] + s[1..];
        assert HasCrLf(s) <==> HasCrLf(s[1..]) by { CrLfFurtherOn(s); }
      }
    } else {
    }
  }

  lemma CrLfFurtherOn(s: string)
    requires s != "" && !(|s| > 1 && s[0] == '\r' && s[1] == '\n')
    ensures HasCrLf(s) <==> HasCrLf(s[1..])
  {
    if HasCrLf(s) {
      var i :| 0 <= i < |s| - 1 && s[i] == '\r' && s[i + 1] == '\n';
      assert s[1..][i - 1] == '\r' && s[1..][i] == '\n';
    }
    if HasCrLf(s[1..]) {
      var i :| 0 <= i < |s[1..]| - 1 && s[1..][i] == '\r' && s[1..][i + 1] == '\n';
      assert s[i + 1] == '\r' && s[i + 2] == '\n';
    }
  }

  /** Turning every LF into CRLF is invisible after unifying exactly when the text had no CRLF. */
  lemma CrLfCheckoutIsInvisible(s: string)
    ensures UnifyLineEndings(ToCrLf(s)) == UnifyLineEndings(s) <==> !HasCrLf(s)
  {
    CrLfUndone(s);
    CrLfShortens(s);
  }

  // ---------------------------------------------------------------- normal form

  function TrimLines(lines: seq<string>): (r: seq<string>)
    ensures |r| == |lines| && forall i :: 0 <= i < |r| ==> r[i] == TrimRight(lines[i])
  {
    seq(|lines|, i requires 0 <= i < |lines| => TrimRight(lines[i]))
  }

  function Normalize(text: string): string {
    Trim(Join(TrimLines(Split(UnifyLineEndings(text), '\n')), '\n'))
  }

  /** No line ends in a blank. */
  predicate Tidy(t: string) {
    forall i :: 0 <= i < |t| - 1 && t[i + 1] == '\n' ==> t[i] == '\n' || !IsSpace(t[i])
  }

  predicate NormalForm(t: string) {
    '\r' !in t && Tidy(t) && (t != "" ==> !IsSpace(t[0]) && !IsSpace(t[|t| - 1]))
  }

  lemma {:induction false} JoinedIsTidy(lines: seq<string>)
    requires |lines| > 0 && forall l :: l in lines ==> TrimRight(l) == l && '\n' !in l && '\r' !in l
    ensures Tidy(Join(lines, '\n')) && '\r' !in Join(lines, '\n')
  {
    if |lines| > 1 {
      JoinedIsTidy(lines[1..]);
      var head, rest := lines[0], Join(lines[1..], '\n');
      assert head in lines;
      var t := head + ['\n'] + rest;
      assert forall k :: 0 <= k < |head| ==> t[k] == head[k] != '\n';
      forall i | 0 <= i < |t| - 1 && t[i + 1] == '\n' ensures t[i] == '\n' || !IsSpace(t[i]) {
        if i > |head| { assert t[i] == rest[i - |head| - 1] && t[i + 1] == rest[i - |head|]; }
      }
    } else {
      assert lines[0] in lines;
    }
  }

  lemma {:induction false} TidyLines(t: string)
    requires Tidy(t) && (t != "" ==> t[|t| - 1] == '\n' || !IsSpace(t[|t| - 1]))
    ensures forall l :: l in Split(t, '\n') ==> TrimRight(l) == l
  {
    if t != "" {
      var rest := Split(t[1..], '\n');
      forall i | 0 <= i < |t[1..]| - 1 && t[1..][i + 1] == '\n' ensures t[1..][i] == '\n' || !IsSpace(t[1..][i]) {
        assert t[i + 2] == '\n';
      }
      TidyLines(t[1..]);
      assert rest[0] in rest;
      FirstLine(t[1..]);
    } else {
    }
  }

  lemma FirstLine(t: string)
    ensures var first := Split(t, '\n')[0];
            first <= t && (first == t || t[|first|] == '\n') && '\n' !in first
  {
    SplitThenJoin(t, '\n');
    PiecesAreFree(t, '\n');
    var parts := Split(t, '\n');
    assert parts[0] in parts;
  }

  lemma TrimmedIsTidy(t: string)
    requires Tidy(t) && '\r' !in t
    ensures NormalForm(Trim(t))
  {
    var left := TrimLeft(t);
    var r := TrimRight(left);
    assert left == t[|t| - |left|..|t|] && r == left[0..|r|];
    SliceIsTidy(t, |t| - |left|, |t|);
    SliceIsTidy(left, 0, |r|);
  }

  lemma SliceIsTidy(t: string, a: nat, b: nat)
    requires Tidy(t) && '\r' !in t && a <= b <= |t|
    ensures Tidy(t[a..b]) && '\r' !in t[a..b]
  {
    var r := t[a..b];
    forall i | 0 <= i < |r| - 1 && r[i + 1] == '\n' ensures r[i] == '\n' || !IsSpace(r[i]) {
      assert t[a + i + 1] == '\n';
    }
  }

  lemma TrimmedStays(t: string)
    requires t != "" ==> !IsSpace(t[0]) && !IsSpace(t[|t| - 1])
    ensures Trim(t) == t
  {
  }

  /** Normalising yields a normal form, and leaves every normal form alone: so it is idempotent,
      and normal forms are exactly its results. */
  lemma NormalizeIsCanonical(text: string)
    ensures NormalForm(Normalize(text))
    ensures Normalize(text) == text <==> NormalForm(text)
    ensures Normalize(Normalize(text)) == Normalize(text)
  {
    NormalizeGivesNormalForm(text);
    NormalizeKeepsNormalForm(Normalize(text));
    if NormalForm(text) { NormalizeKeepsNormalForm(text); }
  }

  lemma NormalizeGivesNormalForm(text: string)
    ensures NormalForm(Normalize(text))
  {
    var unified := UnifyLineEndings(text);
    var lines := Split(unified, '\n');
    SplitThenJoin(unified, '\n');
    PiecesAreFree(unified, '\n');
    var trimmed := TrimLines(lines);
    forall l | l in trimmed ensures TrimRight(l) == l && '\n' !in l && '\r' !in l {
      var i :| 0 <= i < |trimmed| && trimmed[i] == l;
      assert lines[i] in lines;
      NoNewChars(lines, unified, i);
    }
    JoinedIsTidy(trimmed);
    TrimmedIsTidy(Join(trimmed, '\n'));
  }

  lemma {:induction false} NoNewChars(lines: seq<string>, text: string, i: nat)
    requires i < |lines| && Join(lines, '\n') == text
    ensures forall c :: c in lines[i] ==> c in text
  {
    if i > 0 { NoNewChars(lines[1..], Join(lines[1..], '\n'), i - 1); }
  }

  lemma NormalizeKeepsNormalForm(t: string)
    requires NormalForm(t)
    ensures Normalize(t) == t
  {
    UnifyKeepsUnified(t);
    TidyLines(t);
    SplitThenJoin(t, '\n');
    assert TrimLines(Split(t, '\n')) == Split(t, '\n');
    TrimmedStays(t);
  }

  // ---------------------------------------------------------------- sections

  predicate IsHeading(line: string) {
    |line| > 3 && line[0] == '#' && line[1] == '#' && line[2] == ' '
  }

  /** Two hashes, a space and a name. */
  lemma HeadingLine(line: string)
    ensures IsHeading(line) <==> exists name :: name != "" && line == "## " + name
  {
    if IsHeading(line) { assert line == "## " + line[3..]; }
  }

  datatype Section = Section(name: string, body: string)

  /** A body split on its headings: what precedes the first, then each name with the text up to
      the next heading, the line break after the heading included. */
  datatype Parts = Parts(head: string, sections: seq<Section>)

  function AddText(st: Parts, text: string): Parts {
    if st.sections == [] then st.(head := st.head + text)
    else
      var last := |st.sections| - 1;
      st.(sections := st.sections[last := st.sections[last].(body := st.sections[last].body + text)])
  }

  function AddLine(st: Parts, line: string): Parts {
    if IsHeading(line) then
      var broken := AddText(st, ['\n']);
      broken.(sections := broken.sections + [Section(line[3..], "")])
    else AddText(st, ['\n'] + line)
  }

  function FirstOf(line: string): Parts {
    if IsHeading(line) then Parts("", [Section(line[3..], "")]) else Parts(line, [])
  }

  function AddLines(st: Parts, lines: seq<string>): Parts
    decreases |lines|
  {
    if lines == [] then st else AddLines(AddLine(st, lines[0]), lines[1..])
  }

  function SplitBody(lines: seq<string>): Parts
    requires |lines| > 0
  {
    AddLines(FirstOf(lines[0]), lines[1..])
  }

  /** The head, then every heading with its body, put back together. */
  function Rebuilt(st: Parts): string {
    st.head + Written(st.sections)
  }

  function Written(sections: seq<Section>): string {
    if sections == [] then ""
    else
      var last := sections[|sections| - 1];
      Written(sections[..|sections| - 1]) + ['#', '#', ' '] + last.name + last.body
  }

  /** Lines after the first, each with the break before it. */
  function Flat(lines: seq<string>): string {
    if lines == [] then "" else ['\n'] + lines[0] + Flat(lines[1..])
  }

  lemma {:induction false} JoinIsFlat(lines: seq<string>)
    requires |lines| > 0
    ensures Join(lines, '\n') == lines[0] + Flat(lines[1..])
  {
    if |lines| > 1 { JoinIsFlat(lines[1..]); }
  }

  lemma AddedText(st: Parts, text: string)
    ensures Rebuilt(AddText(st, text)) == Rebuilt(st) + text
  {
    if st.sections != [] {
      var after, n := AddText(st, text), |st.sections| - 1;
      assert after.sections[..n] == st.sections[..n];
    }
  }

  lemma AddedLine(st: Parts, line: string)
    ensures Rebuilt(AddLine(st, line)) == Rebuilt(st) + ['\n'] + line
  {
    if IsHeading(line) {
      var broken := AddText(st, ['\n']);
      AddedText(st, ['\n']);
      var after := AddLine(st, line);
      assert after.sections[..|after.sections| - 1] == broken.sections;
      assert ['#', '#', ' '] + line[3..] == line;
    } else {
      AddedText(st, ['\n'] + line);
    }
  }

  lemma {:induction false} AddedLines(st: Parts, lines: seq<string>)
    ensures Rebuilt(AddLines(st, lines)) == Rebuilt(st) + Flat(lines)
    decreases |lines|
  {
    if lines != [] {
      AddedLine(st, lines[0]);
      AddedLines(AddLine(st, lines[0]), lines[1..]);
    } else {
    }
  }

  /** Splitting on headings loses nothing: the dropped head and the sections rebuild the text. */
  lemma SplitIsLossless(text: string)
    ensures Rebuilt(SplitBody(Split(text, '\n'))) == text
  {
    var lines := Split(text, '\n');
    SplitThenJoin(text, '\n');
    JoinIsFlat(lines);
    AddedLines(FirstOf(lines[0]), lines[1..]);
    var first := FirstOf(lines[0]);
    if IsHeading(lines[0]) {
      assert first.sections[..|first.sections| - 1] == [];
      assert ['#', '#', ' '] + lines[0][3..] == lines[0];
      assert Written([]) == "";
    }
    assert Rebuilt(first) == lines[0];
  }

  // ---------------------------------------------------------------- names and locality

  function Names(sections: seq<Section>): (r: seq<string>)
    ensures |r| == |sections| && forall i :: 0 <= i < |r| ==> r[i] == sections[i].name
  {
    seq(|sections|, i requires 0 <= i < |sections| => sections[i].name)
  }

  /** What the heading pattern finds, line by line. */
  function Headings(lines: seq<string>): seq<string> {
    if lines == [] then [] else (if IsHeading(lines[0]) then [lines[0][3..]] else []) + Headings(lines[1..])
  }

  lemma {:induction false} NamesAreHeadings(st: Parts, lines: seq<string>)
    ensures Names(AddLines(st, lines).sections) == Names(st.sections) + Headings(lines)
    decreases |lines|
  {
    if lines != [] {
      var next := AddLine(st, lines[0]);
      NamesAreHeadings(next, lines[1..]);
      assert Names(next.sections) == Names(st.sections) + if IsHeading(lines[0]) then [lines[0][3..]] else [];
    } else {
      assert Headings(lines) == [];
    }
  }

  /** The sections found are exactly the headings of the text, in order. */
  lemma SectionsAreHeadings(lines: seq<string>)
    requires |lines| > 0
    ensures Names(SplitBody(lines).sections) == Headings(lines)
  {
    NamesAreHeadings(FirstOf(lines[0]), lines[1..]);
    assert Names(FirstOf(lines[0]).sections) == if IsHeading(lines[0]) then [lines[0][3..]] else [];
  }

  /** The same sections, but for the body of the one at `i`. */
  ghost predicate AgreeBut(a: Parts, b: Parts, i: nat) {
    && a.head == b.head && |a.sections| == |b.sections| && i < |a.sections|
    && a.sections[i].name == b.sections[i].name
    && forall j :: 0 <= j < |a.sections| && j != i ==> a.sections[j] == b.sections[j]
  }

  lemma {:induction false} AgreementLasts(a: Parts, b: Parts, i: nat, lines: seq<string>)
    requires AgreeBut(a, b, i)
    ensures AgreeBut(AddLines(a, lines), AddLines(b, lines), i)
    decreases |lines|
  {
    if lines != [] {
      AgreementLasts(AddLine(a, lines[0]), AddLine(b, lines[0]), i, lines[1..]);
    } else {
    }
  }

  lemma {:induction false} PlainLinesFillTheLast(st: Parts, other: Parts, lines: seq<string>)
    requires st.sections != [] && AgreeBut(st, other, |st.sections| - 1) && forall l :: l in lines ==> !IsHeading(l)
    ensures AgreeBut(AddLines(st, lines), other, |st.sections| - 1)
    decreases |lines|
  {
    if lines != [] {
      assert lines[0] in lines;
      PlainLinesFillTheLast(AddLine(st, lines[0]), other, lines[1..]);
    } else {
    }
  }

  lemma {:induction false} AddLinesInTwo(st: Parts, a: seq<string>, b: seq<string>)
    ensures AddLines(st, a + b) == AddLines(AddLines(st, a), b)
    decreases |a|
  {
    if a == [] {
      assert a + b == b;
    } else {
      assert (a + b)[1..] == a[1..] + b;
      AddLinesInTwo(AddLine(st, a[0]), a[1..], b);
    }
  }

  /** An edit below one heading, adding or removing no heading, changes that section only: this is
      why one edited section costs one embedding. */
  lemma EditsStayLocal(first: string, pre: seq<string>, heading: string, a: seq<string>, b: seq<string>, post: seq<string>)
    requires IsHeading(heading) && (forall l :: l in a || l in b ==> !IsHeading(l))
    ensures AgreeBut(SplitBody([first] + (pre + [heading] + a + post)), SplitBody([first] + (pre + [heading] + b + post)),
                     |Headings([first] + pre)|)
  {
    var st := AddLines(FirstOf(first), pre + [heading]);
    var i := |Headings([first] + pre)|;
    AddLinesInTwo(FirstOf(first), pre, [heading]);
    NamesAreHeadings(FirstOf(first), pre);
    assert ([first] + pre)[1..] == pre;
    assert |st.sections| - 1 == i by {
      var before := AddLines(FirstOf(first), pre);
      assert |before.sections| == |Names(before.sections)| == |FirstOf(first).sections| + |Headings(pre)|;
      assert AddLines(before, [heading]) == AddLine(before, heading);
    }
    AddLinesInTwo(FirstOf(first), pre + [heading] + a, post);
    AddLinesInTwo(FirstOf(first), pre + [heading] + b, post);
    AddLinesInTwo(FirstOf(first), pre + [heading], a);
    AddLinesInTwo(FirstOf(first), pre + [heading], b);
    PlainLinesFillTheLast(st, st, a);
    PlainLinesFillTheLast(st, AddLines(st, a), b);
    AgreementLasts(AddLines(st, a), AddLines(st, b), i, post);
    assert ([first] + (pre + [heading] + a + post))[1..] == pre + [heading] + a + post;
    assert ([first] + (pre + [heading] + b + post))[1..] == pre + [heading] + b + post;
  }

  // ---------------------------------------------------------------- chunks

  /** The digest of these three fields names a chunk. */
  datatype ChunkId = ChunkId(runbook: string, section: string, text: string)

  const NUL: char := 0 as char

  /** What is fed to the digest. */
  function Encoded(id: ChunkId): string {
    id.runbook + [NUL] + (id.section + [NUL] + (id.text + [NUL]))
  }

  predicate NulFree(id: ChunkId) {
    NUL !in id.runbook && NUL !in id.section && NUL !in id.text
  }

  /** The three fields in this order, each with a NUL after it. */
  lemma EncodingReads(id: ChunkId)
    ensures Encoded(id) == id.runbook + ['\0'] + id.section + ['\0'] + id.text + ['\0']
  {
  }

  /** Without NULs in the fields no two ids are encoded alike; with them two can be. */
  lemma EncodingIsInjective(a: ChunkId, b: ChunkId)
    requires NulFree(a) && NulFree(b)
    ensures Encoded(a) == Encoded(b) <==> a == b
    ensures exists x: ChunkId, y: ChunkId :: x != y && Encoded(x) == Encoded(y)
  {
    Decoded(a);
    Decoded(b);
    var x, y := ChunkId([NUL], "", ""), ChunkId("", [NUL], "");
    assert Encoded(x) == [NUL, NUL, NUL, NUL] == Encoded(y);
  }

  lemma Decoded(id: ChunkId)
    requires NulFree(id)
    ensures Split(Encoded(id), NUL) == [id.runbook, id.section, id.text, ""]
  {
    SplitAfter(id.runbook, NUL, id.section + [NUL] + (id.text + [NUL]));
    SplitAfter(id.section, NUL, id.text + [NUL]);
    assert id.text + [NUL] == id.text + [NUL] + "";
    SplitAfter(id.text, NUL, "");
  }

  /** `meta` is what every chunk carries along unchanged: services, severity, status, alert name. */
  datatype Frontmatter = Frontmatter(runbookId: string, title: string, meta: string)

  datatype Chunk = Chunk(id: ChunkId, title: string, ordinal: nat, meta: string)

  /** The line that closes the frontmatter: the first `---` after at least one line of it that is
      followed by another line. */
  function FrontmatterEnd(lines: seq<string>, from: nat): (k: Option<nat>)
    ensures k.Some? ==> from <= k.value < |lines| - 1 && lines[k.value] == "---"
    decreases |lines| - from
  {
    if from >= |lines| - 1 then None
    else if lines[from] == "---" then Some(from)
    else FrontmatterEnd(lines, from + 1)
  }

  lemma {:induction false} FrontmatterEndIsFirst(lines: seq<string>, from: nat)
    ensures var end := FrontmatterEnd(lines, from);
            forall j :: from <= j < (if end.Some? then end.value else |lines| - 1) ==> lines[j] != "---"
    decreases |lines| - from
  {
    if from < |lines| - 1 && lines[from] != "---" { FrontmatterEndIsFirst(lines, from + 1); }
  }

  type Yaml = string -> Result<Frontmatter>

  /** The frontmatter, and the lines of the body. */
  function ParseFrontmatter(lines: seq<string>, yaml: Yaml): (r: Result<(Frontmatter, seq<string>)>)
    requires |lines| > 0
    ensures r.Ok? ==> |r.value.1| > 0
  {
    var end := FrontmatterEnd(lines, 2);
    if lines[0] != "---" || end.None? then Err("runbook has no YAML frontmatter block")
    else
      match yaml(Join(lines[1..end.value], '\n'))
      case Err(e) => Err(e)
      case Ok(front) => Ok((front, lines[end.value + 1..]))
  }

  /** A runbook opens with `---`; the first further `---`, after at least one line between and with a line
      after it, ends the frontmatter, which must be YAML; the body is the lines after it. */
  lemma FrontmatterIsParsed(lines: seq<string>, yaml: Yaml, k: nat)
    requires 2 <= k < |lines| - 1 && lines[0] == "---" && lines[k] == "---" && forall j :: 2 <= j < k ==> lines[j] != "---"
    ensures ParseFrontmatter(lines, yaml)
            == match yaml(Join(lines[1..k], '\n'))
               case Ok(front) => Ok((front, lines[k + 1..]))
               case Err(e) => Err(e)
  {
    FrontmatterEndIsFirst(lines, 2);
  }

  lemma NoFrontmatter(lines: seq<string>, yaml: Yaml)
    requires |lines| > 0 && (lines[0] != "---" || forall j :: 2 <= j < |lines| - 1 ==> lines[j] != "---")
    ensures ParseFrontmatter(lines, yaml) == Err("runbook has no YAML frontmatter block")
  {
  }

  function ChunkText(title: string, section: string, body: string): string {
    Normalize(title + " \U{2014} " + section + "\n\n" + Normalize(body))
  }

  /** How a runbook's sections become text: the title is the same for all of them. */
  function TextOf(title: string): Section -> string {
    (section: Section) => ChunkText(title, section.name, section.body)
  }

  function ChunkOf(front: Frontmatter, section: Section, ordinal: nat, textOf: Section -> string): Chunk {
    Chunk(ChunkId(front.runbookId, section.name, textOf(section)), front.title, ordinal, front.meta)
  }

  function ChunksOf(front: Frontmatter, sections: seq<Section>, textOf: Section -> string): (r: seq<Chunk>)
    ensures |r| == |sections| && forall i :: 0 <= i < |r| ==> r[i] == ChunkOf(front, sections[i], i, textOf)
  {
    seq(|sections|, i requires 0 <= i < |sections| => ChunkOf(front, sections[i], i, textOf))
  }

  function ChunkLines(lines: seq<string>, yaml: Yaml): Result<seq<Chunk>>
    requires |lines| > 0
  {
    match ParseFrontmatter(lines, yaml)
    case Err(e) => Err(e)
    case Ok((front, body)) =>
      var sections := SplitBody(body).sections;
      if sections == [] then Err("runbook has no `##` sections") else Ok(ChunksOf(front, sections, TextOf(front.title)))
  }

  function Chunked(source: string, yaml: Yaml): Result<seq<Chunk>> {
    ChunkLines(Split(UnifyLineEndings(source), '\n'), yaml)
  }

  /** What the manifest keeps of a file: the text whose digest is the document hash. */
  function Document(source: string): string {
    Normalize(source)
  }

  /** Chunking succeeds exactly when there is frontmatter and a heading under it; then there is one
      chunk for each heading, in order, named after it, its text in normal form. */
  predicate OnePerHeading(parsed: Result<(Frontmatter, seq<string>)>, out: Result<seq<Chunk>>) {
    && (out.Ok? <==> parsed.Ok? && Headings(parsed.value.1) != [])
    && (out.Ok? ==>
          var front, names := parsed.value.0, Headings(parsed.value.1);
          && |out.value| == |names|
          && forall i :: 0 <= i < |names| ==>
               && out.value[i].id.section == names[i] && out.value[i].id.runbook == front.runbookId
               && out.value[i].ordinal == i && out.value[i].title == front.title && out.value[i].meta == front.meta
               && NormalForm(out.value[i].id.text))
  }

  lemma OneChunkPerHeading(lines: seq<string>, yaml: Yaml)
    requires |lines| > 0
    ensures OnePerHeading(ParseFrontmatter(lines, yaml), ChunkLines(lines, yaml))
  {
    if ParseFrontmatter(lines, yaml).Ok? {
      var (front, body) := ParseFrontmatter(lines, yaml).value;
      var sections := SplitBody(body).sections;
      SectionsAreHeadings(body);
      assert |Names(sections)| == |sections|;
      forall i | 0 <= i < |sections| ensures NormalForm(TextOf(front.title)(sections[i])) {
        NormalizeGivesNormalForm(front.title + " \U{2014} " + sections[i].name + "\n\n" + Normalize(sections[i].body));
      }
    }
  }

  method BuildChunks(front: Frontmatter, sections: seq<Section>, textOf: Section -> string) returns (chunks: seq<Chunk>)
    ensures chunks == ChunksOf(front, sections, textOf)
  {
    chunks := [];
    for ordinal := 0 to |sections|
      invariant |chunks| == ordinal
      invariant forall i :: 0 <= i < ordinal ==> chunks[i] == ChunkOf(front, sections[i], i, textOf)
    {
      var section := sections[ordinal];
      var text := textOf(section);
      chunks := chunks + [Chunk(ChunkId(front.runbookId, section.name, text), front.title, ordinal, front.meta)];
    }
  }

  method ChunkRunbook(source: string, yaml: Yaml) returns (out: Result<seq<Chunk>>)
    ensures out == Chunked(source, yaml)
    ensures OnePerHeading(ParseFrontmatter(Split(UnifyLineEndings(source), '\n'), yaml), out)
    ensures var parsed := ParseFrontmatter(Split(UnifyLineEndings(source), '\n'), yaml);
            out.Err? ==> out.error == if parsed.Err? then parsed.error else "runbook has no `##` sections"
  {
    var lines := Split(UnifyLineEndings(source), '\n');
    OneChunkPerHeading(lines, yaml);
    var parsed := ParseFrontmatter(lines, yaml);
    if parsed.Err? { return Err(parsed.error); }
    var (front, body) := parsed.value;
    var sections := SplitBody(body).sections;
    if sections == [] { return Err("runbook has no `##` sections"); }
    var chunks := BuildChunks(front, sections, TextOf(front.title));
    out := Ok(chunks);
  }

  /** A CRLF checkout of a text yields the same chunks and the same document hash. */
  lemma CrLfKeepsChunks(source: string, yaml: Yaml)
    requires !HasCrLf(source)
    ensures Chunked(ToCrLf(source), yaml) == Chunked(source, yaml) && Document(ToCrLf(source)) == Document(source)
  {
    CrLfCheckoutIsInvisible(source);
  }

  /** The id in a runbook's frontmatter. */
  function RunbookId(source: string, yaml: Yaml): Option<string> {
    match ParseFrontmatter(Split(UnifyLineEndings(source), '\n'), yaml)
    case Err(_) => None
    case Ok((front, _)) => Some(front.runbookId)
  }

  lemma ChunksBearTheId(source: string, yaml: Yaml)
    requires Chunked(source, yaml).Ok?
    ensures RunbookId(source, yaml).Some? && |Chunked(source, yaml).value| > 0
    ensures forall c :: c in Chunked(source, yaml).value ==> c.id.runbook == RunbookId(source, yaml).value
  {
    OneChunkPerHeading(Split(UnifyLineEndings(source), '\n'), yaml);
  }

  // ---------------------------------------------------------------- the trap in headings

  predicate Plain(lines: seq<string>) {
    forall l :: l in lines ==> '\n' !in l && '\r' !in l
  }

  lemma {:induction false} PlainText(lines: seq<string>)
    requires |lines| > 0 && Plain(lines)
    ensures Split(UnifyLineEndings(Join(lines, '\n')), '\n') == lines
  {
    NoReturns(lines);
    UnifyKeepsUnified(Join(lines, '\n'));
    forall i | 0 <= i < |lines| ensures '\n' !in lines[i] { assert lines[i] in lines; }
    JoinThenSplit(lines, '\n');
  }

  lemma {:induction false} NoReturns(lines: seq<string>)
    requires |lines| > 0 && Plain(lines)
    ensures '\r' !in Join(lines, '\n')
  {
    assert lines[0] in lines;
    if |lines| > 1 {
      NoReturns(lines[1..]);
    } else {
    }
  }

  lemma {:induction false} SameEnd(a: seq<string>, b: seq<string>, from: nat, k: nat)
    requires FrontmatterEnd(a, from) == Some(k) && |a| == |b| && forall i :: 0 <= i <= k ==> a[i] == b[i]
    ensures FrontmatterEnd(b, from) == Some(k)
    decreases |a| - from
  {
    if a[from] != "---" {
      SameEnd(a, b, from + 1, k);
    } else {
    }
  }

  lemma DocumentOfLines(lines: seq<string>)
    requires |lines| > 0 && Plain(lines)
    ensures Document(Join(lines, '\n')) == Trim(Join(TrimLines(lines), '\n'))
  {
    PlainText(lines);
  }

  lemma BlankAdded(pre: seq<string>, line: string, post: seq<string>)
    requires Plain(pre + [line] + post)
    ensures Plain(pre + [line + [' ']] + post)
    ensures TrimLines(pre + [line + [' ']] + post) == TrimLines(pre + [line] + post)
  {
    assert line in pre + [line] + post;
    assert (line + [' '])[..|line|] == line;
    assert TrimRight(line + [' ']) == TrimRight(line);
  }

  lemma ParsesAlike(pre: seq<string>, line: string, other: string, post: seq<string>, yaml: Yaml, k: nat)
    requires pre != [] && pre[0] == "---" && FrontmatterEnd(pre + [line] + post, 2) == Some(k) && k < |pre|
    requires yaml(Join(pre[1..k], '\n')).Ok?
    ensures var front := yaml(Join(pre[1..k], '\n')).value;
      && ParseFrontmatter(pre + [line] + post, yaml) == Ok((front, pre[k + 1..] + [line] + post))
      && ParseFrontmatter(pre + [other] + post, yaml) == Ok((front, pre[k + 1..] + [other] + post))
  {
    var before, after := pre + [line] + post, pre + [other] + post;
    SameEnd(before, after, 2, k);
    assert before[1..k] == pre[1..k] == after[1..k];
    assert before[k + 1..] == pre[k + 1..] + [line] + post && after[k + 1..] == pre[k + 1..] + [other] + post;
  }

  /** A blank after a heading is invisible to the document hash, so the file is taken for
      unchanged, yet it changes the section's name and with it the chunk's id. */
  lemma BlankAfterHeading(pre: seq<string>, heading: string, post: seq<string>, yaml: Yaml, k: nat)
    requires IsHeading(heading) && Plain(pre + [heading] + post)
    requires pre != [] && pre[0] == "---" && FrontmatterEnd(pre + [heading] + post, 2) == Some(k) && k < |pre|
    requires yaml(Join(pre[1..k], '\n')).Ok?
    ensures Document(Join(pre + [heading + [' ']] + post, '\n')) == Document(Join(pre + [heading] + post, '\n'))
    ensures var before, after := ChunkLines(pre + [heading] + post, yaml), ChunkLines(pre + [heading + [' ']] + post, yaml);
            var i := |Headings(pre[k + 1..])|;
            before.Ok? && after.Ok? && i < |before.value| == |after.value| && before.value[i].id != after.value[i].id
  {
    BlankAdded(pre, heading, post);
    DocumentOfLines(pre + [heading] + post);
    DocumentOfLines(pre + [heading + [' ']] + post);
    ParsesAlike(pre, heading, heading + [' '], post, yaml, k);
    HeadingsInThree(pre[k + 1..], heading, post);
    HeadingsInThree(pre[k + 1..], heading + [' '], post);
    OneChunkPerHeading(pre + [heading] + post, yaml);
    OneChunkPerHeading(pre + [heading + [' ']] + post, yaml);
    assert |(heading + [' '])[3..]| == |heading[3..]| + 1;
  }

  lemma {:induction false} HeadingsInThree(top: seq<string>, heading: string, post: seq<string>)
    requires IsHeading(heading)
    ensures Headings(top + [heading] + post) == Headings(top) + [heading[3..]] + Headings(post)
  {
    var lines := top + [heading] + post;
    if top == [] {
      assert lines[1..] == post;
    } else {
      assert lines[1..] == top[1..] + [heading] + post;
      HeadingsInThree(top[1..], heading, post);
    }
  }
}
