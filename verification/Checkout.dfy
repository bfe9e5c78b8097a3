/** A whole runbook file checked out with CRLF line ends: when its chunks stay. */
module Checkout {
  import opened Text
  import opened Wrappers
  import opened Chunking
  import opened NormalText
  import opened ChunkIdentity

  // ---------------------------------------------------------------- a file with its line breaks

  /** How many characters the line break takes that `s` starts with; 0 when it starts with none. */
  function Break(s: string): (n: nat)
    ensures n <= |s| && n <= 2
  {
    if s == "" then 0
    else if s[0] == '\r' && |s| > 1 && s[1] == '\n' then 2
    else if s[0] == '\r' || s[0] == '\n' then 1
    else 0
  }

  /** The lines of a file, each after the first with the break before it as it stands. */
  function Pieces(s: string): (ps: seq<string>)
    ensures |ps| > 0
  {
    if s == "" then [""]
    else if Break(s) == 0 then
      var rest := Pieces(s[1..]);
      [[s[0]] + rest[0]] + rest[1..]
    else
      var rest := Pieces(s[Break(s)..]);
      [""] + ([s[..Break(s)] + rest[0]] + rest[1..])
  }

  function LineIn(piece: string): string {
    piece[Break(piece)..]
  }

  function Lines(ps: seq<string>): seq<string> {
    if ps == [] then [] else [LineIn(ps[0])] + Lines(ps[1..])
  }

  /** What becomes of the lines when every LF, those of CRLF included, is written CRLF: a break that was
      CRLF is two. */
  function Doubled(ps: seq<string>): seq<string> {
    if ps == [] then []
    else (if Break(ps[0]) == 2 then ["", LineIn(ps[0])] else [LineIn(ps[0])]) + Doubled(ps[1..])
  }

  predicate BreakFree(line: string) {
    '\r' !in line && '\n' !in line
  }

  /** A piece is a break and a line, and does not run into the next one. */
  predicate Piece(p: string) {
    Break(p) > 0 && BreakFree(LineIn(p))
  }

  predicate Apart(p: string, q: string) {
    p == ['\r'] ==> q == "" || q[0] != '\n'
  }

  predicate Formed(ps: seq<string>) {
    && (forall i :: 0 <= i < |ps| ==> Piece(ps[i]))
    && (forall i :: 0 <= i < |ps| - 1 ==> Apart(ps[i], ps[i + 1]))
  }

  lemma BreakThenLine(b: string, line: string)
    requires b in {['\r', '\n'], ['\r'], ['\n']} && BreakFree(line)
    ensures Break(b + line) == |b| && LineIn(b + line) == line
  {
    if line != "" { assert line[0] in line; }
  }

  lemma BreakIs(s: string)
    requires Break(s) > 0
    ensures s[..Break(s)] in {['\r', '\n'], ['\r'], ['\n']}
    ensures s[..Break(s)] == ['\r'] ==> |s| == 1 || s[1] != '\n'
  {
    if Break(s) == 2 { assert s[..2] == ['\r', '\n']; } else { assert s[..1] == [s[0]]; }
  }

  /** What the pieces of a text are. */
  lemma {:induction false} PiecesAreFormed(s: string)
    ensures BreakFree(Pieces(s)[0]) && Formed(Pieces(s)[1..])
    ensures Pieces(s)[0] == "" && s != "" ==> |Pieces(s)| > 1 && Pieces(s)[1] != "" && Pieces(s)[1][0] == s[0]
  {
    if s == "" {
    } else if Break(s) == 0 {
      PiecesAreFormed(s[1..]);
    } else {
      var n := Break(s);
      var rest := Pieces(s[n..]);
      PiecesAreFormed(s[n..]);
      BreakIs(s);
      BreakThenLine(s[..n], rest[0]);
      OnePieceMore(s, n, s[..n] + rest[0], rest);
    }
  }

  lemma OnePieceMore(s: string, n: nat, first: string, rest: seq<string>)
    requires 0 < n <= |s| && |rest| > 0 && first == s[..n] + rest[0] && Piece(first) && Formed(rest[1..])
    requires s[..n] == ['\r'] ==> |s| == 1 || s[1] != '\n'
    requires rest[0] == "" && s[n..] != "" ==> |rest| > 1 && rest[1] != "" && rest[1][0] == s[n..][0]
    requires s[n..] == "" ==> rest == [""]
    ensures Formed([first] + rest[1..])
  {
    var ps := [first] + rest[1..];
    forall i | 0 <= i < |ps| - 1 ensures Apart(ps[i], ps[i + 1]) {
      if i == 0 {
        if first == ['\r'] {
          assert s[..n][0] == first[0] && rest[0] == "" && s[..n] == ['\r'];
          assert s[n..][0] == s[1];
        }
      } else {
        assert ps[i] == rest[1..][i - 1] && ps[i + 1] == rest[1..][i];
      }
    }
    forall i | 0 <= i < |ps| ensures Piece(ps[i]) {
      if i > 0 { assert ps[i] == rest[1..][i - 1]; }
    }
  }

  // ---------------------------------------------------------------- the lines, unified

  lemma ReplaceCrCons(c: char, u: string)
    ensures ReplaceCr([c] + u) == [if c == '\r' then '\n' else c] + ReplaceCr(u)
  {
    assert ([c] + u)[1..] == u;
  }

  lemma UnifyPlainChar(s: string)
    requires s != "" && Break(s) == 0
    ensures UnifyLineEndings(s) == [s[0]] + UnifyLineEndings(s[1..])
    ensures ReplaceCr(s) == [s[0]] + ReplaceCr(s[1..])
  {
    ReplaceCrCons(s[0], ReplaceCrLf(s[1..]));
  }

  lemma UnifyBreak(s: string)
    requires Break(s) > 0
    ensures UnifyLineEndings(s) == ['\n'] + UnifyLineEndings(s[Break(s)..])
    ensures ReplaceCr(s) == (if Break(s) == 2 then ['\n', '\n'] else ['\n']) + ReplaceCr(s[Break(s)..])
  {
    if Break(s) == 2 { UnifyCrLf(s, s[2..]); } else { UnifyCrOrLf(s, s[1..]); }
  }

  lemma UnifyCrLf(s: string, u: string)
    requires Break(s) == 2 && u == s[2..]
    ensures UnifyLineEndings(s) == ['\n'] + UnifyLineEndings(u)
    ensures ReplaceCr(s) == ['\n', '\n'] + ReplaceCr(u)
  {
    ReplaceCrCons('\n', ReplaceCrLf(u));
    ReplaceCrCons('\n', u);
    ReplaceCrCons('\r', ['\n'] + u);
    assert s == ['\r'] + (['\n'] + u);
    assert ['\n'] + (['\n'] + ReplaceCr(u)) == ['\n', '\n'] + ReplaceCr(u);
  }

  lemma UnifyCrOrLf(s: string, u: string)
    requires Break(s) == 1 && u == s[1..]
    ensures UnifyLineEndings(s) == ['\n'] + UnifyLineEndings(u)
    ensures ReplaceCr(s) == ['\n'] + ReplaceCr(u)
  {
    ReplaceCrCons(s[0], ReplaceCrLf(u));
  }

  lemma SplitPlainChar(c: char, u: string)
    requires c != '\n'
    ensures Split([c] + u, '\n') == [[c] + Split(u, '\n')[0]] + Split(u, '\n')[1..]
  {
    assert ([c] + u)[1..] == u;
  }

  lemma SplitBreak(u: string)
    ensures Split(['\n'] + u, '\n') == [""] + Split(u, '\n')
  {
    assert (['\n'] + u)[1..] == u;
  }

  lemma LinesCons(p: string, rest: seq<string>)
    ensures Lines([p] + rest) == [LineIn(p)] + Lines(rest)
    ensures Doubled([p] + rest) == (if Break(p) == 2 then ["", LineIn(p)] else [LineIn(p)]) + Doubled(rest)
  {
    assert ([p] + rest)[1..] == rest;
  }

  /** A first line has no break before it. */
  lemma FirstLineIn(line: string)
    requires BreakFree(line)
    ensures Break(line) == 0 && LineIn(line) == line
  {
    if line != "" { assert line[0] in line; }
  }

  /** The lines of the pieces are the lines of the file, and doubled they are those of its CRLF checkout. */
  lemma {:induction false} PiecesAreLines(s: string)
    ensures Lines(Pieces(s)) == Split(UnifyLineEndings(s), '\n')
    ensures Doubled(Pieces(s)) == Split(ReplaceCr(s), '\n')
  {
    if s == "" {
      NoText(s);
    } else if Break(s) == 0 {
      var rest := Pieces(s[1..]);
      PiecesAreLines(s[1..]);
      PiecesAreFormed(s[1..]);
      PlainCharLines(s, rest, UnifyLineEndings(s[1..]), ReplaceCr(s[1..]));
    } else {
      var n := Break(s);
      PiecesAreLines(s[n..]);
      PiecesAreFormed(s[n..]);
      BreakLines(s, n, Pieces(s[n..]), UnifyLineEndings(s[n..]), ReplaceCr(s[n..]));
    }
  }

  lemma NoText(s: string)
    requires s == ""
    ensures Lines(Pieces(s)) == Split(UnifyLineEndings(s), '\n') && Doubled(Pieces(s)) == Split(ReplaceCr(s), '\n')
  {
    assert Lines([""]) == [""] + Lines([]) && Doubled([""]) == [""] + Doubled([]);
  }

  lemma PlainCharLines(s: string, rest: seq<string>, u: string, v: string)
    requires s != "" && Break(s) == 0 && u == UnifyLineEndings(s[1..]) && v == ReplaceCr(s[1..])
    requires |rest| > 0 && rest == Pieces(s[1..]) && BreakFree(rest[0])
    requires Lines(rest) == Split(u, '\n') && Doubled(rest) == Split(v, '\n')
    ensures Lines(Pieces(s)) == Split(UnifyLineEndings(s), '\n')
    ensures Doubled(Pieces(s)) == Split(ReplaceCr(s), '\n')
  {
    var c, first, tail := s[0], rest[0], rest[1..];
    assert rest == [first] + tail && Pieces(s) == [[c] + first] + tail;
    PlainCharPieces(c, first, tail);
    UnifyPlainChar(s);
    CharBefore(c, first, Lines(tail), u);
    CharBefore(c, first, Doubled(tail), v);
  }

  lemma CharBefore(c: char, first: string, tail: seq<string>, u: string)
    requires c != '\n' && Split(u, '\n') == [first] + tail
    ensures Split([c] + u, '\n') == [[c] + first] + tail
  {
    SplitPlainChar(c, u);
  }

  lemma PlainCharPieces(c: char, first: string, tail: seq<string>)
    requires c != '\r' && c != '\n' && BreakFree(first)
    ensures Lines([[c] + first] + tail) == [[c] + first] + Lines(tail) && Lines([first] + tail) == [first] + Lines(tail)
    ensures Doubled([[c] + first] + tail) == [[c] + first] + Doubled(tail) && Doubled([first] + tail) == [first] + Doubled(tail)
  {
    LinesCons(first, tail);
    LinesCons([c] + first, tail);
    FirstLineIn(first);
    FirstLineIn([c] + first);
  }

  lemma BreakLines(s: string, n: nat, rest: seq<string>, u: string, v: string)
    requires n == Break(s) > 0 && u == UnifyLineEndings(s[n..]) && v == ReplaceCr(s[n..])
    requires |rest| > 0 && rest == Pieces(s[n..]) && BreakFree(rest[0])
    requires Lines(rest) == Split(u, '\n') && Doubled(rest) == Split(v, '\n')
    ensures Lines(Pieces(s)) == Split(UnifyLineEndings(s), '\n')
    ensures Doubled(Pieces(s)) == Split(ReplaceCr(s), '\n')
  {
    UnifyBreak(s);
    SplitBreak(u);
    SplitBreaks(v, n == 2);
    BreakIs(s);
    BreakPieces(s[..n], rest[0], rest[1..], n == 2);
    assert rest == [rest[0]] + rest[1..];
    assert Pieces(s) == [""] + ([s[..n] + rest[0]] + rest[1..]);
  }

  lemma SplitBreaks(v: string, twice: bool)
    ensures Split((if twice then ['\n', '\n'] else ['\n']) + v, '\n') == (if twice then ["", ""] else [""]) + Split(v, '\n')
  {
    SplitBreak(v);
    if twice {
      SplitBreak(['\n'] + v);
      assert ['\n', '\n'] + v == ['\n'] + (['\n'] + v);
      assert ["", ""] + Split(v, '\n') == [""] + ([""] + Split(v, '\n'));
    }
  }

  lemma BreakPieces(b: string, first: string, tail: seq<string>, twice: bool)
    requires b in {['\r', '\n'], ['\r'], ['\n']} && twice == (|b| == 2) && BreakFree(first)
    ensures Lines([""] + ([b + first] + tail)) == [""] + Lines([first] + tail)
    ensures Doubled([""] + ([b + first] + tail)) == (if twice then ["", ""] else [""]) + Doubled([first] + tail)
  {
    var ps := [b + first] + tail;
    BreakThenLine(b, first);
    FirstLineIn(first);
    LinesCons(first, tail);
    LinesCons(b + first, tail);
    EmptyFirst(ps);
  }

  lemma EmptyFirst(ps: seq<string>)
    ensures Lines([""] + ps) == [""] + Lines(ps) && Doubled([""] + ps) == [""] + Doubled(ps)
  {
    LinesCons("", ps);
  }

  // ---------------------------------------------------------------- the sections as they stand in the file

  function RawBlocks(ps: seq<string>): Parts {
    if ps == [] then Parts("", [])
    else
      var rest := RawBlocks(ps[1..]);
      var line := LineIn(ps[0]);
      if IsHeading(line) then Parts(ps[0][..Break(ps[0])], [Section(line[3..], rest.head)] + rest.sections)
      else Parts(ps[0] + rest.head, rest.sections)
  }

  /** The same sections with their texts unified, or with every break character a break of its own. */
  function Mapped(sections: seq<Section>, f: string -> string): (r: seq<Section>)
    ensures |r| == |sections|
    ensures forall i :: 0 <= i < |r| ==> r[i] == Section(sections[i].name, f(sections[i].body))
  {
    seq(|sections|, i requires 0 <= i < |sections| => Section(sections[i].name, f(sections[i].body)))
  }

  lemma MappedCons(first: Section, rest: seq<Section>, f: string -> string)
    ensures Mapped([first] + rest, f) == [Section(first.name, f(first.body))] + Mapped(rest, f)
  {
  }

  lemma RawHeadStarts(ps: seq<string>)
    requires Formed(ps)
    ensures ps == [] ==> RawBlocks(ps).head == ""
    ensures ps != [] ==> ps[0] != "" && RawBlocks(ps).head != "" && RawBlocks(ps).head[0] == ps[0][0]
  {
    if ps != [] { assert Piece(ps[0]); }
  }

  /** What the text of one piece becomes, and that of the pieces after it separately. */
  lemma PieceUnified(p: string, h: string)
    requires Piece(p) && (p == ['\r'] ==> h == "" || h[0] != '\n')
    ensures UnifyLineEndings(p + h) == ['\n'] + LineIn(p) + UnifyLineEndings(h)
    ensures ReplaceCr(p + h) == (if Break(p) == 2 then ['\n', '\n'] else ['\n']) + LineIn(p) + ReplaceCr(h)
  {
    var line := LineIn(p);
    EndsApart(p, h);
    ReplaceCrLfConcat(p, h);
    ReplaceCrConcat(ReplaceCrLf(p), ReplaceCrLf(h));
    ReplaceCrConcat(p, h);
    UnifyBreak(p);
    UnifyKeepsUnified(line);
    KeepsLine(line);
  }

  lemma KeepsLine(line: string)
    requires BreakFree(line)
    ensures ReplaceCr(line) == line
  {
  }

  lemma EndsApart(p: string, h: string)
    requires Piece(p) && (p == ['\r'] ==> h == "" || h[0] != '\n')
    ensures p != "" && h != "" ==> !(p[|p| - 1] == '\r' && h[0] == '\n')
  {
    BreakIs(p);
    var line := LineIn(p);
    if line != "" {
      assert p[|p| - 1] == line[|line| - 1] && line[|line| - 1] in line;
    } else if p[|p| - 1] == '\r' {
      assert p == p[..Break(p)];
      assert p == ['\r'];
    }
  }

  /** Splitting the unified lines, or the doubled ones, into sections is splitting the pieces and then
      unifying, or doubling, what is in each section. */
  lemma {:induction false} BlocksOfPieces(ps: seq<string>)
    requires Formed(ps)
    ensures Blocks(Lines(ps)).head == UnifyLineEndings(RawBlocks(ps).head)
    ensures Blocks(Lines(ps)).sections == Mapped(RawBlocks(ps).sections, UnifyLineEndings)
    ensures Blocks(Doubled(ps)).head == ReplaceCr(RawBlocks(ps).head)
    ensures Blocks(Doubled(ps)).sections == Mapped(RawBlocks(ps).sections, ReplaceCr)
  {
    if ps != [] {
      var p, rest := ps[0], ps[1..];
      assert Piece(p) && ps == [p] + rest;
      RestIsFormed(ps);
      BlocksOfPieces(rest);
      RawHeadStarts(rest);
      if rest != [] { assert Apart(ps[0], ps[1]); }
      PieceThenBlocks(p, rest, RawBlocks(rest), Lines(rest), Doubled(rest));
    } else {
      assert UnifyLineEndings("") == "" == ReplaceCr("");
    }
  }

  lemma RestIsFormed(ps: seq<string>)
    requires ps != [] && Formed(ps)
    ensures Formed(ps[1..])
  {
    forall i | 0 <= i < |ps[1..]| - 1 ensures Apart(ps[1..][i], ps[1..][i + 1]) { assert Apart(ps[i + 1], ps[i + 2]); }
    forall i | 0 <= i < |ps[1..]| ensures Piece(ps[1..][i]) { assert Piece(ps[i + 1]); }
  }

  ghost predicate Follow(raw: Parts, lines: seq<string>, f: string -> string) {
    Blocks(lines).head == f(raw.head) && Blocks(lines).sections == Mapped(raw.sections, f)
  }

  lemma PieceThenBlocks(p: string, rest: seq<string>, raw: Parts, lines: seq<string>, doubled: seq<string>)
    requires Piece(p) && raw == RawBlocks(rest) && lines == Lines(rest) && doubled == Doubled(rest)
    requires p == ['\r'] ==> raw.head == "" || raw.head[0] != '\n'
    requires Follow(raw, lines, UnifyLineEndings) && Follow(raw, doubled, ReplaceCr)
    ensures Follow(RawBlocks([p] + rest), Lines([p] + rest), UnifyLineEndings)
    ensures Follow(RawBlocks([p] + rest), Doubled([p] + rest), ReplaceCr)
  {
    var line := LineIn(p);
    LinesCons(p, rest);
    RawOfPiece(p, rest);
    BreakAlone(p);
    PieceUnified(p, raw.head);
    BlocksOfLine(line, lines);
    BlocksOfLine(line, doubled);
    LineFollows(p, line, raw, lines, [line] + lines, UnifyLineEndings, ['\n']);
    if Break(p) == 2 {
      TwoLines(line, doubled);
      LineFollows(p, line, raw, doubled, ["", line] + doubled, ReplaceCr, ['\n', '\n']);
    } else {
      LineFollows(p, line, raw, doubled, [line] + doubled, ReplaceCr, ['\n']);
    }
  }

  /** With `lead` the line breaks that come of the piece's. */
  lemma LineFollows(p: string, line: string, raw: Parts, lines: seq<string>, more: seq<string>, f: string -> string, lead: string)
    requires Piece(p) && line == LineIn(p) && Follow(raw, lines, f)
    requires f(p[..Break(p)]) == lead && f(p + raw.head) == lead + line + f(raw.head)
    requires Blocks(more) == LineBlocks(lead, line, Blocks(lines))
    ensures Follow(RawLine(p, raw), more, f)
  {
    if IsHeading(line) { MappedCons(Section(line[3..], raw.head), raw.sections, f); }
  }

  function LineBlocks(lead: string, line: string, rest: Parts): Parts {
    if IsHeading(line) then Parts(lead, [Section(line[3..], rest.head)] + rest.sections)
    else Parts(lead + line + rest.head, rest.sections)
  }

  function RawLine(p: string, rest: Parts): Parts {
    if IsHeading(LineIn(p)) then Parts(p[..Break(p)], [Section(LineIn(p)[3..], rest.head)] + rest.sections)
    else Parts(p + rest.head, rest.sections)
  }

  lemma RawOfPiece(p: string, rest: seq<string>)
    ensures RawBlocks([p] + rest) == RawLine(p, RawBlocks(rest))
  {
    assert ([p] + rest)[1..] == rest;
  }

  lemma TwoLines(line: string, rest: seq<string>)
    ensures Blocks(["", line] + rest) == LineBlocks(['\n', '\n'], line, Blocks(rest))
  {
    assert ["", line] + rest == [""] + ([line] + rest);
    BlocksOfLine("", [line] + rest);
    BlocksOfLine(line, rest);
    if !IsHeading(line) {
      assert ['\n'] + "" + (['\n'] + line + Blocks(rest).head) == ['\n', '\n'] + line + Blocks(rest).head;
    } else {
      assert ['\n'] + "" + ['\n'] == ['\n', '\n'];
    }
  }

  lemma BlocksOfLine(line: string, rest: seq<string>)
    ensures Blocks([line] + rest) == LineBlocks(['\n'], line, Blocks(rest))
  {
    assert ([line] + rest)[1..] == rest;
  }

  lemma BreakAlone(p: string)
    requires Piece(p)
    ensures var b := p[..Break(p)];
            UnifyLineEndings(b) == ['\n'] && ReplaceCr(b) == if Break(p) == 2 then ['\n', '\n'] else ['\n']
  {
    var b := p[..Break(p)];
    BreakIs(p);
    assert Break(b) == |b| && b[|b|..] == "";
    UnifyBreak(b);
    UnifyKeepsUnified("");
    assert ReplaceCr("") == "";
  }

  // ---------------------------------------------------------------- the frontmatter

  predicate NoCrLfBefore(ps: seq<string>, k: nat) {
    forall i :: 0 <= i < k && i < |ps| ==> Break(ps[i]) != 2
  }

  /** Up to the first CRLF the lines are the same. */
  lemma {:induction false} SameLinesBefore(ps: seq<string>, k: nat)
    requires k <= |ps| && NoCrLfBefore(ps, k)
    ensures |Lines(ps)| == |ps| <= |Doubled(ps)|
    ensures Lines(ps)[..k] == Doubled(ps)[..k]
    ensures Lines(ps)[k..] == Lines(ps[k..]) && Doubled(ps)[k..] == Doubled(ps[k..])
  {
    if ps == [] {
    } else if k == 0 {
      SameLinesBefore(ps[1..], 0);
      assert ps[0..] == ps;
    } else {
      var p, rest := ps[0], ps[1..];
      assert rest[k - 1..] == ps[k..];
      assert forall i :: 0 <= i < k - 1 ==> rest[i] == ps[i + 1];
      SameLinesBefore(rest, k - 1);
      OneLineEarlier(LineIn(p), Lines(rest), Doubled(rest), k);
    }
  }

  lemma OneLineEarlier(line: string, x: seq<string>, y: seq<string>, k: nat)
    requires 0 < k <= |x| + 1 && |x| <= |y| && x[..k - 1] == y[..k - 1]
    ensures ([line] + x)[..k] == ([line] + y)[..k]
    ensures ([line] + x)[k..] == x[k - 1..] && ([line] + y)[k..] == y[k - 1..]
  {
    assert ([line] + x)[..k] == [line] + x[..k - 1] && ([line] + y)[..k] == [line] + y[..k - 1];
  }

  lemma {:induction false} SameEndIn(a: seq<string>, b: seq<string>, from: nat, k: nat)
    requires FrontmatterEnd(a, from) == Some(k) && k < |b| - 1 && forall i :: 0 <= i <= k ==> a[i] == b[i]
    ensures FrontmatterEnd(b, from) == Some(k)
    decreases |a| - from
  {
    if a[from] != "---" { SameEndIn(a, b, from + 1, k); }
  }

  lemma FrontOfStart(a: seq<string>, b: seq<string>, yaml: Yaml, front: Frontmatter, m: nat)
    requires |a| > 0 && |b| > 0 && Front(a, yaml) == Some((front, m)) && m < |b| - 1 && a[..m + 1] == b[..m + 1]
    ensures Front(b, yaml) == Some((front, m))
  {
    forall i | 0 <= i <= m ensures a[i] == b[i] { assert a[..m + 1][i] == b[..m + 1][i]; }
    assert FrontmatterEnd(a, 2) == Some(m);
    SameEndIn(a, b, 2, m);
    assert a[1..m] == b[1..m];
  }

  // ---------------------------------------------------------------- the file

  /** The sections of a file with their bodies as they stand in it, line breaks included. */
  function RawSections(source: string, m: nat): seq<Section> {
    RawBlocks(From(Pieces(source), m + 1)).sections
  }

  lemma BodyKeeps(body: string)
    ensures Normalize(UnifyLineEndings(body)) == Normalize(ReplaceCr(body)) <==> !HasCrLf(Trim(body))
  {
    CrLfKeepsDocument(body);
    CrLfUndone(body);
    NormalizeUnified(body, UnifyLineEndings(body));
    NormalizeUnified(ToCrLf(body), ReplaceCr(body));
  }

  lemma NormalizeUnified(s: string, u: string)
    requires u == UnifyLineEndings(s)
    ensures Normalize(u) == Normalize(s)
  {
    UnifyKeepsUnified(u);
  }

  /** No CRLF is left in the section once its body is trimmed. */
  predicate InnerBreaksPlain(section: Section) {
    !HasCrLf(Trim(section.body))
  }

  lemma SectionKeeps(raw: Section, p: Section, q: Section)
    requires p == Section(raw.name, ReplaceCr(raw.body)) && q == Section(raw.name, UnifyLineEndings(raw.body))
    ensures SameSection(p, q) <==> InnerBreaksPlain(raw)
  {
    BodyKeeps(raw.body);
  }

  lemma SectionsKeep(raw: seq<Section>, x: seq<Section>, y: seq<Section>)
    requires x == Mapped(raw, ReplaceCr) && y == Mapped(raw, UnifyLineEndings)
    ensures SameSections(x, y) <==> forall j :: 0 <= j < |raw| ==> InnerBreaksPlain(raw[j])
  {
    forall j | 0 <= j < |raw| ensures SameSection(x[j], y[j]) <==> InnerBreaksPlain(raw[j]) {
      SectionKeeps(raw[j], x[j], y[j]);
    }
  }

  /** Files with the same frontmatter have the same chunks when their chunks have the same ids. */
  lemma IdsTellChunks(a: seq<string>, b: seq<string>, yaml: Yaml, front: Frontmatter, m: nat, n: nat)
    requires |a| > 0 && |b| > 0 && Front(a, yaml) == Some((front, m)) && Front(b, yaml) == Some((front, n))
    ensures ChunkLines(a, yaml) == ChunkLines(b, yaml) <==> ChunkIds(a, yaml) == ChunkIds(b, yaml)
  {
    var x, y := SplitBody(From(a, m + 1)).sections, SplitBody(From(b, n + 1)).sections;
    if ChunkIds(a, yaml) == ChunkIds(b, yaml) {
      SameChunks(front, x, y, TextOf(front.title));
    }
  }

  lemma SameChunks(front: Frontmatter, x: seq<Section>, y: seq<Section>, textOf: Section -> string)
    ensures IdsOf(ChunksOf(front, x, textOf)) == IdsOf(ChunksOf(front, y, textOf)) ==>
              |x| == |y| && ChunksOf(front, x, textOf) == ChunksOf(front, y, textOf)
  {
    var p, q := ChunksOf(front, x, textOf), ChunksOf(front, y, textOf);
    if IdsOf(p) == IdsOf(q) {
      assert |p| == |IdsOf(p)| == |q|;
      forall i | 0 <= i < |p| ensures p[i] == q[i] { assert IdsOf(p)[i] == IdsOf(q)[i]; }
    }
  }

  /** What a CRLF checkout makes of the body of a file without CRLF in its frontmatter. */
  lemma CheckedOut(source: string, yaml: Yaml, front: Frontmatter, m: nat)
    requires Front(LinesOf(source), yaml) == Some((front, m)) && NoCrLfBefore(Pieces(source), m + 1)
    ensures Front(LinesOf(ToCrLf(source)), yaml) == Some((front, m))
    ensures SectionsOf(LinesOf(source), m) == Mapped(RawSections(source, m), UnifyLineEndings)
    ensures SectionsOf(LinesOf(ToCrLf(source)), m) == Mapped(RawSections(source, m), ReplaceCr)
  {
    var ps := Pieces(source);
    CrLfUndone(source);
    PiecesAreLines(source);
    PiecesAreFormed(source);
    SameLinesBefore(ps, 0);
    SameLinesBefore(ps, m + 1);
    FrontOfStart(Lines(ps), Doubled(ps), yaml, front, m);
    FormedFrom(ps, m + 1);
    BlocksOfPieces(ps[m + 1..]);
  }

  lemma FormedFrom(ps: seq<string>, k: nat)
    requires 0 < k <= |ps| && Formed(ps[1..])
    ensures Formed(ps[k..])
  {
    forall i | 0 <= i < |ps[k..]| ensures Piece(ps[k..][i]) { assert ps[k..][i] == ps[1..][k - 1 + i]; }
    forall i | 0 <= i < |ps[k..]| - 1 ensures Apart(ps[k..][i], ps[k..][i + 1]) {
      assert ps[k..][i] == ps[1..][k - 1 + i] && ps[k..][i + 1] == ps[1..][k + i];
    }
  }

  /** A CRLF checkout leaves every chunk of a file alone if and only if no CRLF is left in any of its
      sections once their bodies are trimmed. This is for files whose frontmatter holds no CRLF: of the
      others the YAML parser decides. */
  lemma CrLfKeepsFile(source: string, yaml: Yaml, front: Frontmatter, m: nat)
    requires Front(LinesOf(source), yaml) == Some((front, m)) && NoCrLfBefore(Pieces(source), m + 1)
    ensures Chunked(ToCrLf(source), yaml) == Chunked(source, yaml)
            <==> forall j :: 0 <= j < |RawSections(source, m)| ==> InnerBreaksPlain(RawSections(source, m)[j])
  {
    var a, b := LinesOf(ToCrLf(source)), LinesOf(source);
    CheckedOut(source, yaml, front, m);
    IdsTellChunks(a, b, yaml, front, m, m);
    SameSectionsSameIds(a, b, yaml, front, m, m);
    SectionsKeep(RawSections(source, m), SectionsOf(a, m), SectionsOf(b, m));
  }
}
