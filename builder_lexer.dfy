/** The line tokenizer of the C# compiler (`Builder.ReadFile`, Builder.cs:68-115), taking the
    file's lines as input. */
module BuilderLexer {
  import opened Base

  /** `line.StartsWith("//")`. */
  predicate IsComment(line: string)
  {
    |line| >= 2 && line[0] == '/' && line[1] == '/'
  }

  /** `line.EndsWith(";")`. */
  predicate EndsInSemicolon(line: string)
  {
    |line| > 0 && line[|line| - 1] == ';'
  }

  lemma CommentIsPrefix(line: string)
    ensures IsComment(line) <==> StartsWith(line, "//")
  {
    if StartsWith(line, "//") {
      assert line[..2][0] == '/' && line[..2][1] == '/';
    }
    if IsComment(line) {
      assert line[..2] == "//";
    }
  }

  lemma SemicolonIsSuffix(line: string)
    ensures EndsInSemicolon(line) <==> EndsWith(line, ";")
  {
    if EndsWith(line, ";") {
      assert line[|line| - 1..][0] == ';';
    }
    if EndsInSemicolon(line) {
      assert line[|line| - 1..] == ";";
    }
  }

  /** Characters that end the pending token when they are not protected by a quote
      (Builder.cs:95-96). */
  predicate IsDelimiter(c: char)
  {
    c == ';' || c == ' ' || c == '(' || c == ')' || c == ',' || c == '{' || c == '}' || c == '[' || c == ']'
  }

  /** Delimiters that are also stored as a token of their own (Builder.cs:102-111). */
  predicate IsKeptDelimiter(c: char)
  {
    c == ',' || c == ')' || c == '}' || c == '[' || c == ']'
  }

  /** Delimiters that a quote never protects: only space and comma are protected. */
  predicate IsHardDelimiter(c: char)
  {
    IsDelimiter(c) && c != ' ' && c != ','
  }

  /** The tokens emitted so far, `TokenString` and `Quotation`. */
  datatype LexState = LexState(emitted: seq<string>, pending: string, quoted: bool)

  /** One pass of the character loop body (Builder.cs:83-113). */
  function Step(st: LexState, c: char): LexState
  {
    var quoted := if c == '"' then !st.quoted else st.quoted;
    if c == ' ' && quoted then LexState(st.emitted, st.pending + " ", quoted)
    else if c == ',' && quoted then LexState(st.emitted, st.pending + ",", quoted)
    else if !IsDelimiter(c) then LexState(st.emitted, st.pending + [c], quoted)
    else LexState(st.emitted + [st.pending] + (if IsKeptDelimiter(c) then [[c]] else []), "", quoted)
  }

  /** The character loop over `s`, starting from `st`. */
  function LexChars(s: string, st: LexState): LexState
  {
    if s == [] then st else LexChars(s[1..], Step(st, s[0]))
  }

  /** A line with the `;` that Builder.cs:71-72 appends when it is missing. */
  function Terminated(line: string): string
  {
    if EndsInSemicolon(line) then line else line + ";"
  }

  /** The tokens of one line, lexed from a fresh `TokenString` and `Quotation`. */
  function LexLine(line: string): seq<string>
  {
    LexChars(Terminated(line), LexState([], "", false)).emitted
  }

  /** The evident intent of `ReadFile`: a line starting with `//` is skipped entirely and every
      other line is lexed on its own (see the comment-skip finding). */
  function LexLines(source: seq<string>): seq<string>
  {
    if source == [] then []
    else (if IsComment(source[0]) then [] else LexLine(source[0])) + LexLines(source[1..])
  }

  // ---------------------------------------------------------------------------------------
  // ReadFile as written: the comment test sits inside the character loop and bumps the line
  // cursor `i` there (Builder.cs:81-82), so after a comment line the character loop carries on
  // over the NEXT line, which has not had its `;` appended, and the outer loop then skips it.
  // ---------------------------------------------------------------------------------------

  /** The character loop of Builder.cs:77-114 from line `i`, column `j`: the line cursor reached
      and the tokens, or None when `Lines[i][j]` is out of range (an exception). */
  function ScanLine(lines: seq<string>, i: nat, j: nat, st: LexState): (r: Option<(nat, seq<string>)>)
    requires i < |lines|
    ensures r.Some? ==> i <= r.value.0 < |lines|
    decreases |lines| - i, |lines[i]| - j
  {
    if j >= |lines[i]| then Some((i, st.emitted))
    else
      var i' := if IsComment(lines[i]) then i + 1 else i;
      if i' >= |lines| || j >= |lines[i']| then None
      else ScanLine(lines, i', j + 1, Step(st, lines[i'][j]))
  }

  /** The line `i` appended with `;` when it lacks one, as Builder.cs:71-72 does in place. */
  function TerminateAt(lines: seq<string>, i: nat): (r: seq<string>)
    requires i < |lines|
    ensures |r| == |lines| && r[i] == Terminated(lines[i])
  {
    if EndsInSemicolon(lines[i]) then lines else lines[i := lines[i] + ";"]
  }

  /** The line loop of Builder.cs:68-115 from line `i`: the final `Lines` and `Tokens`. */
  function ScanLines(lines: seq<string>, i: nat, tokens: seq<string>): Option<(seq<string>, seq<string>)>
    decreases |lines| - i, 1
  {
    if i >= |lines| then Some((lines, tokens))
    else ScanFrom(TerminateAt(lines, i), i, tokens)
  }

  /** The character loop over the terminated line `i`, then the line loop after it. */
  function ScanFrom(current: seq<string>, i: nat, tokens: seq<string>): Option<(seq<string>, seq<string>)>
    requires i < |current|
    decreases |current| - i, 0
  {
    var r := ScanLine(current, i, 0, LexState(tokens, "", false));
    if r.None? then None else ScanLines(current, r.value.0 + 1, r.value.1)
  }

  /** The line loop has nothing left to do once the cursor is past the last line. */
  lemma ScanLinesDone(lines: seq<string>, i: nat, tokens: seq<string>)
    requires i >= |lines|
    ensures ScanLines(lines, i, tokens) == Some((lines, tokens))
  {
  }

  /** `ReadFile` on the lines of a file, appending to the existing `Tokens` (which it does not
      clear): the new `Lines` and `Tokens`, or None when it throws. */
  function ReadLines(source: seq<string>, tokens: seq<string>): Option<(seq<string>, seq<string>)>
  {
    ScanLines(source, 0, tokens)
  }

  /** One pass of the character loop, unfolded. */
  lemma ScanLineUnfold(lines: seq<string>, i: nat, j: nat, st: LexState)
    requires i < |lines| && j < |lines[i]|
    ensures var i' := if IsComment(lines[i]) then i + 1 else i;
      ScanLine(lines, i, j, st)
        == if i' >= |lines| || j >= |lines[i']| then None
           else ScanLine(lines, i', j + 1, Step(st, lines[i'][j]))
  {
  }

  /** One pass of the line loop, unfolded. */
  lemma ScanLinesUnfold(lines: seq<string>, i: nat, tokens: seq<string>)
    requires i < |lines|
    ensures var r := ScanLine(TerminateAt(lines, i), i, 0, LexState(tokens, "", false));
      && (r.None? ==> ScanLines(lines, i, tokens) == None)
      && (r.Some? ==> ScanLines(lines, i, tokens) == ScanLines(TerminateAt(lines, i), r.value.0 + 1, r.value.1))
  {
  }

  /** One pass of the line loop that lexed line `i` up to line `last`, leaving `tokens'`. */
  lemma ScanLinesAfterLine(lines: seq<string>, i: nat, tokens: seq<string>, last: nat, tokens': seq<string>)
    requires i < |lines|
    requires ScanLine(TerminateAt(lines, i), i, 0, LexState(tokens, "", false)) == Some((last, tokens'))
    ensures ScanLines(lines, i, tokens) == ScanLines(TerminateAt(lines, i), last + 1, tokens')
  {
    ScanLinesUnfold(lines, i, tokens);
  }


  // ---------------------------------------------------------------------------------------
  // What a token can look like
  // ---------------------------------------------------------------------------------------

  predicate NoHardDelimiter(s: string)
  {
    forall k :: 0 <= k < |s| ==> !IsHardDelimiter(s[k])
  }

  /** A token is one of the five stored delimiters, or text without `; ( ) { } [ ]`. */
  predicate IsAtom(tok: string)
  {
    (|tok| == 1 && IsKeptDelimiter(tok[0])) || NoHardDelimiter(tok)
  }

  predicate AllAtoms(t: seq<string>)
  {
    forall k :: 0 <= k < |t| ==> IsAtom(t[k])
  }

  predicate AtomState(st: LexState)
  {
    AllAtoms(st.emitted) && NoHardDelimiter(st.pending)
  }

  lemma StepKeepsAtoms(st: LexState, c: char)
    requires AtomState(st)
    ensures AtomState(Step(st, c))
  {
    var st' := Step(st, c);
    if IsDelimiter(c) && !(c == ' ' && st'.quoted) && !(c == ',' && st'.quoted) {
      assert st'.emitted == st.emitted + [st.pending] + (if IsKeptDelimiter(c) then [[c]] else []);
      assert IsAtom(st.pending);
      if IsKeptDelimiter(c) {
        assert IsAtom([c]);
      }
    } else {
      assert st'.emitted == st.emitted;
      assert st'.pending == st.pending + [c];
    }
  }

  lemma {:induction false} LexCharsKeepsAtoms(s: string, st: LexState)
    requires AtomState(st)
    ensures AtomState(LexChars(s, st))
  {
    if s != [] {
      StepKeepsAtoms(st, s[0]);
      LexCharsKeepsAtoms(s[1..], Step(st, s[0]));
    }
  }

  /** A successful character loop left only atoms in the token list. */
  predicate LineAtoms(r: Option<(nat, seq<string>)>)
  {
    r.Some? ==> AllAtoms(r.value.1)
  }

  lemma {:induction false} ScanLineKeepsAtoms(lines: seq<string>, i: nat, j: nat, st: LexState)
    requires i < |lines| && AtomState(st)
    ensures LineAtoms(ScanLine(lines, i, j, st))
    decreases |lines| - i, |lines[i]| - j
  {
    if j < |lines[i]| {
      var i' := if IsComment(lines[i]) then i + 1 else i;
      if i' < |lines| && j < |lines[i']| {
        StepKeepsAtoms(st, lines[i'][j]);
        ScanLineKeepsAtoms(lines, i', j + 1, Step(st, lines[i'][j]));
      }
    }
  }

  /** A successful scan left only atoms in the token list. */
  predicate AtomsResult(r: Option<(seq<string>, seq<string>)>)
  {
    r.Some? ==> AllAtoms(r.value.1)
  }

  lemma {:induction false} ScanLinesKeepsAtoms(lines: seq<string>, i: nat, tokens: seq<string>)
    requires AllAtoms(tokens)
    ensures AtomsResult(ScanLines(lines, i, tokens))
    decreases |lines| - i
  {
    if i < |lines| {
      var current := TerminateAt(lines, i);
      var r := ScanLine(current, i, 0, LexState(tokens, "", false));
      if r.Some? {
        ScanLineKeepsAtoms(current, i, 0, LexState(tokens, "", false));
        ScanLinesKeepsAtoms(current, r.value.0 + 1, r.value.1);
        assert ScanLines(lines, i, tokens) == ScanLines(current, r.value.0 + 1, r.value.1);
      } else {
        assert ScanLines(lines, i, tokens) == None;
      }
    }
  }

  /** Whatever the lines, ReadFile as written only adds tokens of the two shapes in `IsAtom`. */
  lemma ReadLinesGivesAtoms(source: seq<string>, tokens: seq<string>)
    requires AllAtoms(tokens)
    ensures ReadLines(source, tokens).Some? ==> AllAtoms(ReadLines(source, tokens).value.1)
  {
    ScanLinesKeepsAtoms(source, 0, tokens);
  }

  /** Hence `{`, `;` and `(` are never tokens: the `!= "{"` tests of Builder.cs:207 and 216
      cannot fail on lexer output. */
  lemma AtomsExcludeSeparators(t: seq<string>)
    requires AllAtoms(t)
    ensures "{" !in t && ";" !in t && "(" !in t
  {
    forall k | 0 <= k < |t|
      ensures t[k] != "{" && t[k] != ";" && t[k] != "("
    {
      assert IsAtom(t[k]);
      if t[k] == "{" || t[k] == ";" || t[k] == "(" {
        assert IsHardDelimiter(t[k][0]);
        assert false;
      }
    }
  }

  // ---------------------------------------------------------------------------------------
  // What a line turns into
  // ---------------------------------------------------------------------------------------

  /** The characters of `s` that survive lexing, starting with quote state `q`: everything
      except `;`, `(`, `{`, and the spaces outside a quoted literal. */
  function Visible(s: string, q: bool): string
  {
    if s == [] then ""
    else
      var q' := if s[0] == '"' then !q else q;
      var dropped := s[0] == ';' || s[0] == '(' || s[0] == '{' || (s[0] == ' ' && !q');
      (if dropped then "" else [s[0]]) + Visible(s[1..], q')
  }

  /** The number of tokens `s` adds: one per unprotected delimiter, even when the pending token
      is empty, plus one more for each of `, ) } [ ]`. */
  function Breaks(s: string, q: bool): nat
  {
    if s == [] then 0
    else
      var q' := if s[0] == '"' then !q else q;
      var protected := (s[0] == ' ' || s[0] == ',') && q';
      (if IsDelimiter(s[0]) && !protected then (if IsKeptDelimiter(s[0]) then 2 else 1) else 0)
        + Breaks(s[1..], q')
  }

  /** One character's contribution to the concatenated tokens. */
  lemma StepContent(st: LexState, c: char)
    ensures Concat(Step(st, c).emitted) + Step(st, c).pending
         == Concat(st.emitted) + st.pending + Visible([c], st.quoted)
  {
    var st' := Step(st, c);
    assert [c][1..] == [];
    if IsDelimiter(c) && !(c == ' ' && st'.quoted) && !(c == ',' && st'.quoted) {
      var kept: seq<string> := if IsKeptDelimiter(c) then [[c]] else [];
      ConcatAppend(st.emitted + [st.pending], kept);
      ConcatAppend(st.emitted, [st.pending]);
      assert Concat([st.pending]) == st.pending;
      assert Concat(kept) == (if IsKeptDelimiter(c) then [c] else "");
    }
  }

  lemma VisibleCons(s: string, q: bool)
    requires s != []
    ensures Visible(s, q) == Visible([s[0]], q) + Visible(s[1..], if s[0] == '"' then !q else q)
  {
    assert [s[0]][1..] == [];
  }

  lemma {:induction false} LexCharsContent(s: string, st: LexState)
    ensures Concat(LexChars(s, st).emitted) + LexChars(s, st).pending
         == Concat(st.emitted) + st.pending + Visible(s, st.quoted)
  {
    if s != [] {
      var st' := Step(st, s[0]);
      StepContent(st, s[0]);
      VisibleCons(s, st.quoted);
      LexCharsContent(s[1..], st');
      var before := Concat(st.emitted) + st.pending;
      var first := Visible([s[0]], st.quoted);
      var rest := Visible(s[1..], st'.quoted);
      assert before + first + rest == before + (first + rest);
    }
  }

  lemma {:induction false} LexCharsCount(s: string, st: LexState)
    ensures |LexChars(s, st).emitted| == |st.emitted| + Breaks(s, st.quoted)
  {
    if s != [] {
      LexCharsCount(s[1..], Step(st, s[0]));
    }
  }

  lemma {:induction false} LexCharsFlushesAtSemicolon(s: string, st: LexState)
    requires |s| > 0 && s[|s| - 1] == ';'
    ensures LexChars(s, st).pending == ""
  {
    if |s| > 1 {
      LexCharsFlushesAtSemicolon(s[1..], Step(st, s[0]));
    }
  }

  /** Every character of a line that is not a pure separator ends up in some token, in order,
      and the line's pending token is always flushed by its final `;` (Builder.cs:71-75, 95-113). */
  lemma LexLineContent(line: string)
    ensures Concat(LexLine(line)) == Visible(Terminated(line), false)
    ensures |LexLine(line)| == Breaks(Terminated(line), false)
  {
    var s := Terminated(line);
    var st := LexChars(s, LexState([], "", false));
    LexCharsContent(s, LexState([], "", false));
    LexCharsCount(s, LexState([], "", false));
    LexCharsFlushesAtSemicolon(s, LexState([], "", false));
    assert Concat([]) == "";
    assert Concat(st.emitted) + st.pending == Concat(st.emitted);
    assert Concat([]) + "" + Visible(s, false) == Visible(s, false);
  }

  // ---------------------------------------------------------------------------------------
  // As written versus intended
  // ---------------------------------------------------------------------------------------

  predicate NoCommentLine(lines: seq<string>)
  {
    forall k :: 0 <= k < |lines| ==> !IsComment(lines[k])
  }

  /** The lines with the `;` appended to those from index `i` on. */
  function TerminatedFrom(lines: seq<string>, i: nat): (r: seq<string>)
    ensures |r| == |lines|
  {
    seq(|lines|, k requires 0 <= k < |lines| => if k < i then lines[k] else Terminated(lines[k]))
  }

  lemma {:induction false} ScanLineWithoutComment(lines: seq<string>, i: nat, j: nat, st: LexState)
    requires i < |lines| && j <= |lines[i]| && !IsComment(lines[i])
    ensures ScanLine(lines, i, j, st) == Some((i, LexChars(lines[i][j..], st).emitted))
    decreases |lines[i]| - j
  {
    if j < |lines[i]| {
      assert lines[i][j..][1..] == lines[i][j + 1..];
      ScanLineWithoutComment(lines, i, j + 1, Step(st, lines[i][j]));
    }
  }

  lemma TerminatedNotComment(line: string)
    requires !IsComment(line)
    ensures !IsComment(Terminated(line))
  {
    if !EndsInSemicolon(line) && |line| >= 1 {
      assert (line + ";")[0] == line[0];
      if |line| >= 2 {
        assert (line + ";")[1] == line[1];
      } else {
        assert (line + ";")[1] == ';';
      }
    }
  }

  /** The character loop over a non-comment line emits that line's tokens after the others. */
  lemma ScanLineOfLine(lines: seq<string>, i: nat, tokens: seq<string>)
    requires i < |lines| && !IsComment(lines[i])
    ensures ScanLine(TerminateAt(lines, i), i, 0, LexState(tokens, "", false))
         == Some((i, tokens + LexLine(lines[i])))
  {
    var current := TerminateAt(lines, i);
    TerminatedNotComment(lines[i]);
    ScanLineWithoutComment(current, i, 0, LexState(tokens, "", false));
    assert current[i][0..] == current[i];
    LexCharsAppendsOnly(current[i], [], tokens);
    assert tokens + [] == tokens;
  }

  lemma ScanLinesStep(lines: seq<string>, i: nat, tokens: seq<string>)
    requires i < |lines| && !IsComment(lines[i])
    ensures ScanLines(lines, i, tokens) == ScanLines(TerminateAt(lines, i), i + 1, tokens + LexLine(lines[i]))
  {
    ScanLineOfLine(lines, i, tokens);
  }

  lemma {:induction false} ScanLinesWithoutComment(lines: seq<string>, i: nat, tokens: seq<string>)
    requires i <= |lines|
    requires forall k :: i <= k < |lines| ==> !IsComment(lines[k])
    ensures ScanLines(lines, i, tokens) == Some((TerminatedFrom(lines, i), tokens + LexLines(lines[i..])))
    decreases |lines| - i
  {
    if i == |lines| {
      assert TerminatedFrom(lines, i) == lines;
      assert lines[i..] == [];
      assert tokens + LexLines([]) == tokens;
    } else {
      var current := TerminateAt(lines, i);
      ScanLinesStep(lines, i, tokens);
      ScanLinesWithoutComment(current, i + 1, tokens + LexLine(lines[i]));
      TerminatedFromStep(lines, i);
      LexLinesFrom(lines, i);
      assert (tokens + LexLine(lines[i])) + LexLines(lines[i + 1..]) == tokens + LexLines(lines[i..]);
    }
  }

  lemma TerminatedFromStep(lines: seq<string>, i: nat)
    requires i < |lines|
    ensures TerminateAt(lines, i)[i + 1..] == lines[i + 1..]
    ensures TerminatedFrom(TerminateAt(lines, i), i + 1) == TerminatedFrom(lines, i)
  {
  }

  lemma LexLinesFrom(lines: seq<string>, i: nat)
    requires i < |lines| && !IsComment(lines[i])
    ensures LexLines(lines[i..]) == LexLine(lines[i]) + LexLines(lines[i + 1..])
  {
    assert lines[i..][0] == lines[i];
    assert lines[i..][1..] == lines[i + 1..];
  }

  /** The state carried from one line's character loop to the next does not matter: the tokens
      already emitted are only ever extended. */
  lemma {:induction false} LexCharsAppendsOnly(s: string, before: seq<string>, extra: seq<string>)
    ensures LexChars(s, LexState(extra + before, "", false)).emitted
         == extra + LexChars(s, LexState(before, "", false)).emitted
  {
    LexCharsShift(s, LexState(before, "", false), extra);
  }

  lemma {:induction false} LexCharsShift(s: string, st: LexState, extra: seq<string>)
    ensures LexChars(s, st.(emitted := extra + st.emitted))
         == LexChars(s, st).(emitted := extra + LexChars(s, st).emitted)
  {
    if s != [] {
      var st' := Step(st, s[0]);
      assert Step(st.(emitted := extra + st.emitted), s[0]) == st'.(emitted := extra + st'.emitted);
      LexCharsShift(s[1..], st', extra);
    }
  }

  /** Without comment lines, ReadFile as written is the intended line-by-line lexer: no token
      spans two lines and `TokenString`/`Quotation` start afresh on every line. */
  lemma ReadLinesWithoutComments(source: seq<string>, tokens: seq<string>)
    requires NoCommentLine(source)
    ensures ReadLines(source, tokens) == Some((TerminatedFrom(source, 0), tokens + LexLines(source)))
  {
    assert source[0..] == source;
    ScanLinesWithoutComment(source, 0, tokens);
  }

  /** The intended lexer handles lines independently and drops comment lines. */
  lemma {:induction false} LexLinesAppend(a: seq<string>, b: seq<string>)
    ensures LexLines(a + b) == LexLines(a) + LexLines(b)
  {
    if a == [] {
      assert a + b == b;
    } else {
      assert (a + b)[1..] == a[1..] + b;
      LexLinesAppend(a[1..], b);
    }
  }

  lemma LexLinesSkipsComment(a: seq<string>, comment: string, b: seq<string>)
    requires IsComment(comment)
    ensures LexLines(a + [comment] + b) == LexLines(a) + LexLines(b)
  {
    LexLinesAppend(a + [comment], b);
    LexLinesAppend(a, [comment]);
    LexLinesOfComment(comment);
    assert LexLines(a) + [] == LexLines(a);
  }

  lemma LexLinesOfComment(comment: string)
    requires IsComment(comment)
    ensures LexLines([comment]) == []
  {
    assert [comment][1..] == [];
  }

  /** As written, a comment line makes the character loop run over the next line without its
      `;`, so that line's last token is lost: `x` below is never stored. */
  lemma CommentLineLosesNextLinesLastToken()
    ensures ReadLines(["//c", "x"], []) == Some((["//c;", "x"], []))
    ensures LexLines(["//c", "x"]) == ["x"]
  {
    ReadCommentThenLine();
    LexLineOfLetter('x');
    assert !IsComment("x");
    assert ["//c", "x"][1..] == ["x"];
    assert ["x"][1..] == [];
  }

  /** A one-character line that is neither a delimiter nor a quote is one token. */
  lemma LexLineOfLetter(c: char)
    requires !IsDelimiter(c) && c != '"'
    ensures LexLine([c]) == [[c]]
  {
    var line := [c] + ";";
    assert Terminated([c]) == line;
    var s1 := Step(LexState([], "", false), c);
    assert s1.pending == [c];
    assert line[1..] == ";";
    assert LexChars(line, LexState([], "", false)) == LexChars(";", s1);
    var s2 := Step(s1, ';');
    assert s2.emitted == [[c]];
    assert LexChars(";", s1) == s2;
  }

  /** The character loop of the comment line `//c` runs over `x` and stops without a `;`. */
  lemma ReadCommentThenLine()
    ensures ReadLines(["//c", "x"], []) == Some((["//c;", "x"], []))
  {
    var lines := ["//c;", "x"];
    assert "//c" + ";" == "//c;";
    assert TerminateAt(["//c", "x"], 0) == lines;
    assert IsComment(lines[0]);
    var st := Step(LexState([], "", false), 'x');
    assert st == LexState([], "x", false);
    assert ScanLine(lines, 1, 1, st) == Some((1, []));
    ScanLineUnfold(lines, 0, 0, LexState([], "", false));
    assert ScanLine(lines, 0, 0, LexState([], "", false)) == Some((1, []));
    assert ScanLines(lines, 2, []) == Some((lines, []));
    ScanLinesUnfold(["//c", "x"], 0, []);
  }

  /** As written, a comment on the last line reads `Lines[Lines.Count]`, which throws, so the
      whole build fails. */
  lemma CommentOnLastLineFails()
    ensures ReadLines(["//c"], []) == None
    ensures LexLines(["//c"]) == []
  {
    assert IsComment("//c;");
    assert "//c" + ";" == "//c;";
    assert ["//c"][0 := "//c;"] == ["//c;"];
    assert ["//c"][1..] == [];
  }
}
