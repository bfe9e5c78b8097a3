/** How normalising sees a text: line by line, blind to outer blanks, and so when a CRLF checkout changes
    a document hash. */
module NormalText {
  import opened Text
  import opened Chunking

  // ---------------------------------------------------------------- a text with its lines trimmed

  /** Every line without its trailing blanks. */
  function Tidied(u: string): string {
    Join(TrimLines(Split(u, '\n')), '\n')
  }

  predicate Blank(s: string) {
    forall i :: 0 <= i < |s| ==> IsSpace(s[i])
  }

  /** Whether only blanks stand before the end of the line. */
  predicate AtLineEnd(t: string) {
    t == "" || t[0] == '\n'
  }

  lemma TrimRightCons(c: char, s: string)
    ensures TrimRight([c] + s) == if TrimRight(s) == "" && IsSpace(c) then "" else [c] + TrimRight(s)
  {
    if s == "" {
      assert [c] + s == [c] && [c][..0] == "";
    } else if IsSpace(s[|s| - 1]) {
      assert ([c] + s)[..|s|] == [c] + s[..|s| - 1];
      TrimRightCons(c, s[..|s| - 1]);
    } else {
      assert ([c] + s)[|s|] == s[|s| - 1];
    }
  }

  lemma JoinCons(first: string, rest: seq<string>)
    ensures Join([first] + rest, '\n') == if rest == [] then first else first + ['\n'] + Join(rest, '\n')
  {
    assert ([first] + rest)[1..] == rest;
  }

  lemma TrimLinesCons(first: string, rest: seq<string>)
    ensures TrimLines([first] + rest) == [TrimRight(first)] + TrimLines(rest)
  {
  }

  lemma TidiedBreak(u: string)
    ensures Tidied(['\n'] + u) == ['\n'] + Tidied(u)
  {
    var s := ['\n'] + u;
    assert s[1..] == u;
    TrimLinesCons("", Split(u, '\n'));
    JoinCons("", TrimLines(Split(u, '\n')));
    assert Split(s, '\n') == [""] + Split(u, '\n');
  }

  /** Trimmed lines, each with the break before it. */
  function Following(rest: seq<string>): string {
    if rest == [] then "" else ['\n'] + Join(TrimLines(rest), '\n')
  }

  lemma TidiedFirst(first: string, rest: seq<string>)
    ensures Join(TrimLines([first] + rest), '\n') == TrimRight(first) + Following(rest)
  {
    TrimLinesCons(first, rest);
    JoinCons(TrimRight(first), TrimLines(rest));
  }

  lemma TidiedCons(c: char, u: string)
    requires c != '\n'
    ensures Tidied([c] + u) == if IsSpace(c) && AtLineEnd(Tidied(u)) then Tidied(u) else [c] + Tidied(u)
  {
    var parts := Split(u, '\n');
    assert ([c] + u)[1..] == u;
    var first, rest := parts[0], parts[1..];
    assert parts == [first] + rest && Split([c] + u, '\n') == [[c] + first] + rest;
    PiecesAreFree(u, '\n');
    assert '\n' !in first;
    Prefixed(c, first, rest, Tidied(u), Tidied([c] + u));
  }

  lemma Prefixed(c: char, first: string, rest: seq<string>, before: string, after: string)
    requires before == Join(TrimLines([first] + rest), '\n') && after == Join(TrimLines([[c] + first] + rest), '\n')
    requires '\n' !in first
    ensures after == if IsSpace(c) && AtLineEnd(before) then before else [c] + before
  {
    TidiedFirst(first, rest);
    TidiedFirst([c] + first, rest);
    TrimRightCons(c, first);
    PutFirst(c, TrimRight(first), TrimRight([c] + first), Following(rest));
  }

  lemma PutFirst(c: char, short: string, long: string, following: string)
    requires long == if short == "" && IsSpace(c) then "" else [c] + short
    requires '\n' !in short && AtLineEnd(following)
    ensures long + following
            == if IsSpace(c) && AtLineEnd(short + following) then short + following else [c] + (short + following)
  {
    if short != "" {
      assert short[0] in short && (short + following)[0] == short[0];
    } else {
      assert short + following == following;
    }
    assert [c] + short + following == [c] + (short + following);
  }

  // ---------------------------------------------------------------- outer blanks

  lemma {:induction false} TidiedThenBlank(u: string, c: char)
    requires IsSpace(c)
    ensures Tidied(u + [c]) == if c == '\n' then Tidied(u) + ['\n'] else Tidied(u)
  {
    if u == "" {
      assert u + [c] == [c] + "";
      TidiedOfNothing();
      if c == '\n' { TidiedBreak(""); } else { TidiedCons(c, ""); }
    } else {
      var d, v := u[0], u[1..];
      assert u == [d] + v && u + [c] == [d] + (v + [c]);
      TidiedThenBlank(v, c);
      if d == '\n' {
        TidiedBreak(v);
        TidiedBreak(v + [c]);
      } else {
        TidiedCons(d, v);
        TidiedCons(d, v + [c]);
      }
    }
  }

  lemma TidiedOfNothing()
    ensures Tidied("") == ""
  {
    assert Split("", '\n') == [""];
    assert TrimLines([""]) == [""];
  }

  lemma {:induction false} TrimThenBlank(x: string, c: char)
    requires IsSpace(c)
    ensures Trim(x + [c]) == Trim(x)
  {
    if x == "" {
      assert x + [c] == [c] && [c][1..] == "";
    } else if IsSpace(x[0]) {
      assert (x + [c])[1..] == x[1..] + [c];
      TrimThenBlank(x[1..], c);
    } else {
      assert (x + [c])[..|x|] == x;
    }
  }

  /** The text with its lines and its ends trimmed: what `Normalize` comes to without carriage returns. */
  function Neat(u: string): string {
    Trim(Tidied(u))
  }

  lemma BlankBefore(c: char, u: string)
    requires IsSpace(c)
    ensures Neat([c] + u) == Neat(u)
  {
    if c == '\n' { TidiedBreak(u); } else { TidiedCons(c, u); }
    LeadingBlank(c, Tidied(u));
  }

  lemma LeadingBlank(c: char, t: string)
    requires IsSpace(c)
    ensures Trim([c] + t) == Trim(t)
  {
    assert ([c] + t)[1..] == t;
  }

  lemma BlankAfter(u: string, c: char)
    requires IsSpace(c)
    ensures Neat(u + [c]) == Neat(u)
  {
    TidiedThenBlank(u, c);
    TrimThenBlank(Tidied(u), '\n');
  }

  lemma {:induction false} BlanksBefore(before: string, u: string)
    requires Blank(before)
    ensures Neat(before + u) == Neat(u)
  {
    if before == "" {
      assert before + u == u;
    } else {
      assert before + u == [before[0]] + (before[1..] + u);
      BlankBefore(before[0], before[1..] + u);
      BlanksBefore(before[1..], u);
    }
  }

  lemma {:induction false} BlanksAfter(u: string, after: string)
    requires Blank(after)
    ensures Neat(u + after) == Neat(u)
    decreases |after|
  {
    if after == "" {
      assert u + after == u;
    } else {
      assert u + after == (u + [after[0]]) + after[1..];
      BlanksAfter(u + [after[0]], after[1..]);
      BlankAfter(u, after[0]);
    }
  }

  /** Blanks around a text do not matter. */
  lemma OuterBlanks(before: string, u: string, after: string)
    requires Blank(before) && Blank(after)
    ensures Neat(before + u + after) == Neat(u)
  {
    BlanksAfter(before + u, after);
    BlanksBefore(before, u);
  }

  lemma BlanksBeforeInk(s: string) returns (before: string)
    ensures s == before + TrimLeft(s) && Blank(before)
  {
    before := s[..|s| - |TrimLeft(s)|];
    LeftIsBlank(s);
  }

  lemma BlanksAfterInk(s: string) returns (after: string)
    ensures s == TrimRight(s) + after && Blank(after)
  {
    after := s[|TrimRight(s)|..];
    RightIsBlank(s);
  }

  /** A text is its trimmed self between blanks. */
  lemma Unwrapped(s: string, t: string) returns (before: string, after: string)
    requires t == Trim(s)
    ensures s == before + t + after && Blank(before) && Blank(after)
  {
    var left := TrimLeft(s);
    before := BlanksBeforeInk(s);
    after := BlanksAfterInk(left);
    assert s == before + (t + after) == before + t + after;
  }

  /** And it starts and ends in ink. */
  lemma TrimmedEnds(s: string, t: string)
    requires t == Trim(s) && t != ""
    ensures !IsSpace(t[0]) && !IsSpace(t[|t| - 1])
  {
    var left := TrimLeft(s);
    assert t <= left && t[0] == left[0];
  }

  lemma {:induction false} LeftIsBlank(s: string)
    ensures forall i :: 0 <= i < |s| - |TrimLeft(s)| ==> IsSpace(s[i])
  {
    if s != "" && IsSpace(s[0]) { LeftIsBlank(s[1..]); }
  }

  lemma {:induction false} RightIsBlank(s: string)
    ensures Blank(s[|TrimRight(s)|..])
  {
    if s != "" && IsSpace(s[|s| - 1]) {
      RightIsBlank(s[..|s| - 1]);
      assert forall i :: |TrimRight(s)| <= i < |s| - 1 ==> s[i] == s[..|s| - 1][|TrimRight(s)|..][i - |TrimRight(s)|];
    }
  }

  // ---------------------------------------------------------------- line breaks

  /** Carriage returns and line feeds. */
  function Breaks(s: string): nat {
    if s == "" then 0 else (if s[0] == '\n' || s[0] == '\r' then 1 else 0) + Breaks(s[1..])
  }

  lemma {:induction false} ReplaceCrKeepsBreaks(s: string)
    ensures Breaks(ReplaceCr(s)) == Breaks(s)
  {
    if s != "" {
      ReplaceCrKeepsBreaks(s[1..]);
      assert ReplaceCr(s)[1..] == ReplaceCr(s[1..]);
    } else {
    }
  }

  /** Each CRLF taken for one break is a break less. */
  lemma {:induction false} ReplaceCrLfLosesBreaks(s: string)
    ensures Breaks(ReplaceCrLf(s)) + |s| == Breaks(s) + |ReplaceCrLf(s)|
  {
    if s == "" {
    } else if s[0] == '\r' && |s| > 1 && s[1] == '\n' {
      ReplaceCrLfLosesBreaks(s[2..]);
      assert s[1..][1..] == s[2..] && s[1..][0] == '\n';
      assert (['\n'] + ReplaceCrLf(s[2..]))[1..] == ReplaceCrLf(s[2..]);
    } else {
      ReplaceCrLfLosesBreaks(s[1..]);
      assert ([s[0]] + ReplaceCrLf(s[1..]))[1..] == ReplaceCrLf(s[1..]);
    }
  }

  lemma {:induction false} TidiedKeepsBreaks(u: string)
    requires '\r' !in u
    ensures Breaks(Tidied(u)) == Breaks(u)
  {
    if u == "" {
      TidiedOfNothing();
    } else {
      var c, v := u[0], u[1..];
      assert u == [c] + v && c in u;
      TidiedKeepsBreaks(v);
      if c == '\n' { TidiedBreak(v); } else { TidiedCons(c, v); }
      assert ([c] + Tidied(v))[1..] == Tidied(v);
    }
  }

  /** A text that ends in no blank keeps its ends. */
  lemma {:induction false} TidiedEnds(u: string)
    requires u != "" && !IsSpace(u[|u| - 1])
    ensures var t := Tidied(u); t != "" && t[|t| - 1] == u[|u| - 1] && (!IsSpace(u[0]) ==> t[0] == u[0])
  {
    var c, v := u[0], u[1..];
    assert u == [c] + v;
    if c == '\n' { TidiedBreak(v); } else { TidiedCons(c, v); }
    if v == "" {
      TidiedOfNothing();
    } else {
      TidiedEnds(v);
    }
  }

  lemma NeatKeepsBreaks(u: string)
    requires '\r' !in u && (u != "" ==> !IsSpace(u[0]) && !IsSpace(u[|u| - 1]))
    ensures Breaks(Neat(u)) == Breaks(u)
  {
    TidiedKeepsBreaks(u);
    if u != "" {
      TidiedEnds(u);
      TrimmedStays(Tidied(u));
    } else {
      TidiedOfNothing();
    }
  }

  // ---------------------------------------------------------------- CRLF checkouts

  lemma {:induction false} ReplaceCrLfConcat(a: string, b: string)
    requires a != "" && b != "" ==> !(a[|a| - 1] == '\r' && b[0] == '\n')
    ensures ReplaceCrLf(a + b) == ReplaceCrLf(a) + ReplaceCrLf(b)
  {
    if a == "" {
      assert a + b == b;
    } else if |a| > 1 && a[0] == '\r' && a[1] == '\n' {
      assert (a + b)[2..] == a[2..] + b;
      ReplaceCrLfConcat(a[2..], b);
    } else {
      assert (a + b)[1..] == a[1..] + b;
      ReplaceCrLfConcat(a[1..], b);
    }
  }

  lemma {:induction false} ReplacedIsBlank(s: string)
    requires Blank(s)
    ensures Blank(ReplaceCrLf(s))
  {
    if s == "" {
    } else if |s| > 1 && s[0] == '\r' && s[1] == '\n' {
      ReplacedIsBlank(s[2..]);
    } else {
      ReplacedIsBlank(s[1..]);
    }
  }

  lemma {:induction false} ReplacedEnds(s: string)
    requires s != "" && !IsSpace(s[|s| - 1])
    ensures var r := ReplaceCrLf(s); r != "" && r[|r| - 1] == s[|s| - 1] && (!IsSpace(s[0]) ==> r[0] == s[0])
  {
    if |s| > 1 && s[0] == '\r' && s[1] == '\n' {
      ReplacedEnds(s[2..]);
    } else if |s| > 1 {
      ReplacedEnds(s[1..]);
    } else {
      assert s[1..] == "";
    }
  }

  lemma {:induction false} ReplaceCrConcat(a: string, b: string)
    ensures ReplaceCr(a + b) == ReplaceCr(a) + ReplaceCr(b)
  {
    if a == "" {
      assert a + b == b;
    } else {
      assert (a + b)[1..] == a[1..] + b;
      ReplaceCrConcat(a[1..], b);
    }
  }

  lemma BlankReplaced(s: string, r: string)
    requires Blank(s) && r == ReplaceCr(s)
    ensures Blank(r)
  {
  }

  /** With the breaks already one character each. */
  lemma NeatOfWrapped(before: string, t: string, after: string, all: string)
    requires Blank(before) && Blank(after) && all == ReplaceCr(before + t + after)
    ensures Neat(all) == Neat(ReplaceCr(t))
  {
    var x, y, z := ReplaceCr(before), ReplaceCr(t), ReplaceCr(after);
    ReplaceCrConcat(before, t);
    ReplaceCrConcat(before + t, after);
    BlankReplaced(before, x);
    BlankReplaced(after, z);
    OuterBlanks(x, y, z);
  }

  /** What taking CRLF for one break leaves of a wrapped text is wrapped in what it leaves of the blanks. */
  lemma ReplacedWrapped(before: string, t: string, after: string)
    requires Blank(before) && Blank(after) && t != "" && !IsSpace(t[0]) && !IsSpace(t[|t| - 1])
    ensures ReplaceCrLf(before + t + after) == ReplaceCrLf(before) + ReplaceCrLf(t) + ReplaceCrLf(after)
    ensures Blank(ReplaceCrLf(before)) && Blank(ReplaceCrLf(after))
  {
    assert (before + t)[|before + t| - 1] == t[|t| - 1];
    ReplaceCrLfConcat(before, t);
    ReplaceCrLfConcat(before + t, after);
    ReplacedIsBlank(before);
    ReplacedIsBlank(after);
  }

  lemma NeatOfBlanks(s: string, all: string, nothing: string)
    requires Blank(s) && all == ReplaceCr(s) && all + nothing == all
    ensures Neat(all) == Neat(nothing)
  {
    BlankReplaced(s, all);
    BlanksBefore(all, nothing);
  }

  /** What the document hash sees of a file. */
  lemma UnifiedTrimmed(s: string, t: string)
    requires t == Trim(s)
    ensures Neat(ReplaceCr(s)) == Neat(ReplaceCr(t))
    ensures Neat(ReplaceCr(ReplaceCrLf(s))) == Neat(ReplaceCr(ReplaceCrLf(t)))
  {
    var before, after := Unwrapped(s, t);
    NeatOfWrapped(before, t, after, ReplaceCr(s));
    if t != "" {
      TrimmedEnds(s, t);
      ReplacedWrapped(before, t, after);
      NeatOfWrapped(ReplaceCrLf(before), ReplaceCrLf(t), ReplaceCrLf(after), ReplaceCr(ReplaceCrLf(s)));
    } else {
      NothingLeft(s, before, after);
    }
  }

  lemma NothingLeft(s: string, before: string, after: string)
    requires s == before + "" + after && Blank(before) && Blank(after)
    ensures Neat(ReplaceCr(ReplaceCrLf(s))) == Neat(ReplaceCr(ReplaceCrLf("")))
  {
    assert Blank(s);
    ReplacedIsBlank(s);
    NeatOfBlanks(ReplaceCrLf(s), ReplaceCr(ReplaceCrLf(s)), ReplaceCr(ReplaceCrLf("")));
  }

  lemma DocumentIsNeat(s: string)
    ensures Document(s) == Neat(ReplaceCr(ReplaceCrLf(s)))
    ensures Document(ToCrLf(s)) == Neat(ReplaceCr(s))
  {
    CrLfUndone(s);
  }

  lemma FewerBreaksShow(t: string, u: string)
    requires t != "" && !IsSpace(t[0]) && !IsSpace(t[|t| - 1]) && u != "" && !IsSpace(u[0]) && !IsSpace(u[|u| - 1])
    requires Breaks(u) < Breaks(t)
    ensures Neat(ReplaceCr(t)) != Neat(ReplaceCr(u))
  {
    BreaksShow(t);
    BreaksShow(u);
  }

  /** A CRLF left inside is a break less. */
  lemma InnerCrLfShows(t: string)
    requires HasCrLf(t) && !IsSpace(t[0]) && !IsSpace(t[|t| - 1])
    ensures Neat(ReplaceCr(t)) != Neat(ReplaceCr(ReplaceCrLf(t)))
  {
    CrLfShortens(t);
    ReplaceCrLfLosesBreaks(t);
    ReplacedEnds(t);
    FewerBreaksShow(t, ReplaceCrLf(t));
  }

  lemma BreaksShow(t: string)
    requires t != "" && !IsSpace(t[0]) && !IsSpace(t[|t| - 1])
    ensures Breaks(Neat(ReplaceCr(t))) == Breaks(t)
  {
    ReplaceCrKeepsBreaks(t);
    NeatKeepsBreaks(ReplaceCr(t));
  }

  /** A CRLF checkout leaves the document hash alone if and only if no CRLF is left once the file's ends
      are trimmed. */
  lemma CrLfKeepsDocument(s: string)
    ensures Document(ToCrLf(s)) == Document(s) <==> !HasCrLf(Trim(s))
  {
    var t := Trim(s);
    DocumentIsNeat(s);
    UnifiedTrimmed(s, t);
    if HasCrLf(t) {
      TrimmedEnds(s, t);
      InnerCrLfShows(t);
    } else {
      CrLfShortens(t);
    }
  }

  // ---------------------------------------------------------------- what a chunk's text reads

  lemma BreadcrumbIsNormal(title: string, section: string, dash: string, top: string)
    requires title != "" && NormalForm(title) && section != "" && NormalForm(section)
    requires dash == " \U{2014} " && top == title + dash + section
    ensures top != "" && NormalForm(top)
  {
    forall i | 0 <= i < |top| - 1 && top[i + 1] == '\n' ensures top[i] == '\n' || !IsSpace(top[i]) {
      var n := |title| + |dash|;
      if i + 1 < |title| {
        assert top[i] == title[i] && top[i + 1] == title[i + 1];
      } else if i >= n {
        assert top[i] == section[i - n] && top[i + 1] == section[i + 1 - n];
      }
    }
  }

  lemma BodyBelowIsNormal(top: string, text: string, all: string)
    requires top != "" && NormalForm(top) && text != "" && NormalForm(text) && all == top + ['\n', '\n'] + text
    ensures NormalForm(all)
  {
    forall i | 0 <= i < |all| - 1 && all[i + 1] == '\n' ensures all[i] == '\n' || !IsSpace(all[i]) {
      var n := |top| + 2;
      if i + 1 < |top| {
        assert all[i] == top[i] && all[i + 1] == top[i + 1];
      } else if i >= n {
        assert all[i] == text[i - n] && all[i + 1] == text[i + 1 - n];
      }
    }
  }

  lemma NothingBelow(top: string)
    requires NormalForm(top)
    ensures Normalize(top + ['\n', '\n']) == top
  {
    UnifyKeepsUnified(top + ['\n', '\n']);
    UnifyKeepsUnified(top);
    BlanksAfter(top, ['\n', '\n']);
    NormalizeKeepsNormalForm(top);
  }

  lemma TextBelow(top: string, gap: string, text: string)
    requires top != "" && NormalForm(top) && NormalForm(text) && gap == ['\n', '\n']
    ensures Normalize(top + gap + text) == if text == "" then top else top + gap + text
  {
    if text == "" {
      NothingBelow(top);
      assert top + gap + text == top + ['\n', '\n'];
    } else {
      BodyBelowIsNormal(top, text, top + gap + text);
      NormalizeKeepsNormalForm(top + gap + text);
    }
  }

  /** A chunk's text is the title, a dash and the section's name on one line, and after an empty line the
      section's text in normal form, if there is any. */
  lemma ChunkTextReads(title: string, section: string, body: string, dash: string, gap: string, text: string)
    requires title != "" && NormalForm(title) && section != "" && NormalForm(section)
    requires dash == " \U{2014} " && gap == "\n\n" && text == Normalize(body)
    ensures ChunkText(title, section, body)
            == if text == "" then title + dash + section else title + dash + section + gap + text
  {
    BreadcrumbIsNormal(title, section, dash, title + dash + section);
    NormalizeGivesNormalForm(body);
    TextBelow(title + dash + section, gap, text);
  }
}
