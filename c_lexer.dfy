/** The character tokenizer of the C rewrite (`TokenizeFile`, New-Compiler/Tokenization.c:23-67),
    over the rows of `fileContents`. A row is its text up to the first NUL, which is all that
    `strlen` lets the loop see. */
module CLexer {
  import opened Base

  /** The characters that end the pending token (Tokenization.c:34). */
  predicate IsSeparator(c: char)
  {
    c == ';' || c == '{' || c == '}' || c == '(' || c == ')' || c == '"' || c == '=' || c == '+'
    || c == '-' || c == '<' || c == '>' || c == ' ' || c == '[' || c == ']'
  }

  /** The tokens stored so far (`Tokens[..tokenSpot]`) and the pending `currentToken`. */
  datatype Scan = Scan(stored: seq<string>, pending: string)

  /** `stored` with the pending token flushed when it is non-empty (Tokenization.c:36-43, 60-66). */
  function Flush(st: Scan): (r: seq<string>)
    ensures st.stored <= r
  {
    if |st.pending| > 0 then st.stored + [st.pending] else st.stored
  }

  /** One pass of the character loop body (Tokenization.c:34-57): a separator flushes the pending
      token and, unless it is a space, is stored as a token of its own; any other character is
      appended to the pending token. */
  function Step(st: Scan, c: char): Scan
  {
    if IsSeparator(c) then Scan(Flush(st) + (if c != ' ' then [[c]] else []), "")
    else Scan(st.stored, st.pending + [c])
  }

  /** The character loop over `row` from column `j`. */
  function CharsFrom(row: string, j: nat, st: Scan): Scan
    decreases |row| - j
  {
    if j >= |row| then st else CharsFrom(row, j + 1, Step(st, row[j]))
  }

  /** One row: a fresh `currentToken`, the character loop, then the end-of-row flush. */
  function RowEnd(row: string, stored: seq<string>): seq<string>
  {
    Flush(CharsFrom(row, 0, Scan(stored, "")))
  }

  /** The row loop of `TokenizeFile` from row `k`, with `stored` already in `Tokens`. */
  function RowsFrom(rows: seq<string>, k: nat, stored: seq<string>): seq<string>
    decreases |rows| - k
  {
    if k >= |rows| then stored else RowsFrom(rows, k + 1, RowEnd(rows[k], stored))
  }

  /** The tokens `TokenizeFile` stores for `rows`, in order from slot 0. */
  function Tokenize(rows: seq<string>): seq<string>
  {
    RowsFrom(rows, 0, [])
  }

  /** The tokens of one row on its own. */
  function RowTokens(row: string): seq<string>
  {
    RowEnd(row, [])
  }

  /** The tokens of each row, one row after the other. */
  function RowsTokens(rows: seq<string>): seq<string>
  {
    if rows == [] then [] else RowTokens(rows[0]) + RowsTokens(rows[1..])
  }

  /** A token the tokenizer can store: a separator other than space on its own, or a non-empty
      run of characters none of which is a separator. */
  predicate IsToken(t: string)
  {
    (|t| == 1 && IsSeparator(t[0]) && t[0] != ' ')
    || (|t| > 0 && forall k :: 0 <= k < |t| ==> !IsSeparator(t[k]))
  }

  predicate AllTokens(ts: seq<string>)
  {
    forall k :: 0 <= k < |ts| ==> IsToken(ts[k])
  }

  /** `s` with its spaces removed. */
  function WithoutSpaces(s: string): string
  {
    if s == [] then "" else (if s[0] == ' ' then "" else [s[0]]) + WithoutSpaces(s[1..])
  }

  // ---------------------------------------------------------------------------------------
  // Stored tokens only grow: the loops never rewrite a slot below `tokenSpot`.
  // ---------------------------------------------------------------------------------------

  lemma {:induction false} CharsFromGrows(row: string, j: nat, st: Scan)
    ensures st.stored <= CharsFrom(row, j, st).stored
    decreases |row| - j
  {
    if j < |row| {
      CharsFromGrows(row, j + 1, Step(st, row[j]));
    }
  }

  lemma {:induction false} RowsFromGrows(rows: seq<string>, k: nat, stored: seq<string>)
    ensures stored <= RowsFrom(rows, k, stored)
    decreases |rows| - k
  {
    if k < |rows| {
      CharsFromGrows(rows[k], 0, Scan(stored, ""));
      RowsFromGrows(rows, k + 1, RowEnd(rows[k], stored));
    }
  }

  // ---------------------------------------------------------------------------------------
  // No token spans two rows: the tokens of a file are those of its rows, concatenated.
  // ---------------------------------------------------------------------------------------

  lemma {:induction false} CharsFromAppends(row: string, j: nat, before: seq<string>, st: Scan)
    ensures CharsFrom(row, j, Scan(before + st.stored, st.pending))
         == Scan(before + CharsFrom(row, j, st).stored, CharsFrom(row, j, st).pending)
    decreases |row| - j
  {
    if j < |row| {
      var c := row[j];
      var next := Step(st, c);
      assert Step(Scan(before + st.stored, st.pending), c) == Scan(before + next.stored, next.pending) by {
        if IsSeparator(c) && |st.pending| > 0 {
          assert (before + st.stored) + [st.pending] == before + (st.stored + [st.pending]);
        }
        if IsSeparator(c) && c != ' ' {
          assert Flush(Scan(before + st.stored, st.pending)) == before + Flush(st);
        }
      }
      CharsFromAppends(row, j + 1, before, next);
    }
  }

  /** A row's tokens are appended after whatever `Tokens` already holds. */
  lemma RowEndAppends(row: string, stored: seq<string>)
    ensures RowEnd(row, stored) == stored + RowTokens(row)
  {
    var alone := CharsFrom(row, 0, Scan([], ""));
    CharsFromAppends(row, 0, stored, Scan([], ""));
    assert stored + [] == stored;
    if |alone.pending| > 0 {
      assert (stored + alone.stored) + [alone.pending] == stored + (alone.stored + [alone.pending]);
    }
  }

  lemma {:induction false} RowsFromAppends(rows: seq<string>, k: nat, stored: seq<string>)
    requires k <= |rows|
    ensures RowsFrom(rows, k, stored) == stored + RowsTokens(rows[k..])
    decreases |rows| - k
  {
    if k == |rows| {
      assert rows[k..] == [];
    } else {
      RowEndAppends(rows[k], stored);
      RowsFromAppends(rows, k + 1, stored + RowTokens(rows[k]));
      assert rows[k..][1..] == rows[k + 1..];
    }
  }

  /** `TokenizeFile` stores the tokens of row 0, then those of row 1, and so on. */
  lemma TokenizeByRows(rows: seq<string>)
    ensures Tokenize(rows) == RowsTokens(rows)
  {
    RowsFromAppends(rows, 0, []);
    assert rows[0..] == rows;
  }

  // ---------------------------------------------------------------------------------------
  // What a stored token looks like.
  // ---------------------------------------------------------------------------------------

  /** A pending token holds no separator. */
  predicate Plain(s: string)
  {
    forall k :: 0 <= k < |s| ==> !IsSeparator(s[k])
  }

  lemma {:induction false} CharsFromTokens(row: string, j: nat, st: Scan)
    requires AllTokens(st.stored) && Plain(st.pending)
    ensures AllTokens(CharsFrom(row, j, st).stored) && Plain(CharsFrom(row, j, st).pending)
    decreases |row| - j
  {
    if j < |row| {
      var c := row[j];
      var next := Step(st, c);
      if IsSeparator(c) {
        assert AllTokens(Flush(st));
        if c != ' ' {
          assert IsToken([c]);
        }
      } else {
        assert Plain(st.pending + [c]);
      }
      assert AllTokens(next.stored);
      CharsFromTokens(row, j + 1, next);
    }
  }

  /** Every token of a row is a lone separator other than space or a non-empty separator-free
      run: empty tokens and space tokens are never stored. */
  lemma RowTokensAreTokens(row: string)
    ensures AllTokens(RowTokens(row))
  {
    CharsFromTokens(row, 0, Scan([], ""));
  }

  lemma {:induction false} RowsTokensAreTokens(rows: seq<string>)
    ensures AllTokens(RowsTokens(rows))
  {
    if rows != [] {
      RowTokensAreTokens(rows[0]);
      RowsTokensAreTokens(rows[1..]);
    }
  }

  /** Every token `TokenizeFile` stores is a token in the sense of `IsToken`. */
  lemma TokenizeGivesTokens(rows: seq<string>)
    ensures AllTokens(Tokenize(rows))
  {
    TokenizeByRows(rows);
    RowsTokensAreTokens(rows);
  }

  /** A token is never empty, never a space, and never ends a word with `)`: so `"args)"` is
      not a token. */
  lemma TokenShape(t: string)
    requires IsToken(t)
    ensures t != "" && t != " " && t != "args)"
  {
    assert "args)"[4] == ')';
  }

  // ---------------------------------------------------------------------------------------
  // The tokens of a row are its characters, spaces dropped, in order.
  // ---------------------------------------------------------------------------------------

  lemma {:induction false} CharsFromText(row: string, j: nat, st: Scan)
    requires j <= |row|
    ensures Concat(CharsFrom(row, j, st).stored) + CharsFrom(row, j, st).pending
         == Concat(st.stored) + st.pending + WithoutSpaces(row[j..])
    decreases |row| - j
  {
    if j == |row| {
      assert row[j..] == [];
    } else {
      var next := Step(st, row[j]);
      CharsFromText(row, j + 1, next);
      WithoutSpacesAt(row, j);
      JoinText(st, row[j], WithoutSpaces(row[j + 1..]), Concat(CharsFrom(row, j + 1, next).stored) + CharsFrom(row, j + 1, next).pending);
    }
  }

  lemma WithoutSpacesAt(row: string, j: nat)
    requires j < |row|
    ensures WithoutSpaces(row[j..]) == (if row[j] == ' ' then "" else [row[j]]) + WithoutSpaces(row[j + 1..])
  {
    assert row[j..][1..] == row[j + 1..];
  }

  lemma JoinText(st: Scan, c: char, rest: string, text: string)
    requires text == Concat(Step(st, c).stored) + Step(st, c).pending + rest
    ensures text == Concat(st.stored) + st.pending + ((if c == ' ' then "" else [c]) + rest)
  {
    StepText(st, c);
    var before := Concat(st.stored) + st.pending;
    var seen := if c == ' ' then "" else [c];
    assert before + seen + rest == before + (seen + rest);
  }

  lemma StepText(st: Scan, c: char)
    ensures Concat(Step(st, c).stored) + Step(st, c).pending
         == Concat(st.stored) + st.pending + (if c == ' ' then "" else [c])
  {
    FlushText(st);
    if IsSeparator(c) && c != ' ' {
      ConcatAppend(Flush(st), [[c]]);
      assert Concat([[c]]) == [c] + Concat([]);
      assert Concat(Step(st, c).stored) + Step(st, c).pending == Concat(Flush(st)) + [c];
    } else if IsSeparator(c) {
      assert Flush(st) + [] == Flush(st);
      assert Step(st, c) == Scan(Flush(st), "");
      assert Concat(Flush(st)) + "" == Concat(Flush(st));
    } else {
      assert Concat(st.stored) + (st.pending + [c]) == Concat(st.stored) + st.pending + [c];
    }
  }

  lemma FlushText(st: Scan)
    ensures Concat(Flush(st)) == Concat(st.stored) + st.pending
  {
    if |st.pending| > 0 {
      ConcatAppend(st.stored, [st.pending]);
      assert Concat([st.pending]) == st.pending + Concat([]);
    }
  }

  /** Read back to back, the tokens of a row are the row without its spaces: no character
      other than a space is dropped, duplicated or reordered. */
  lemma RowTokensText(row: string)
    ensures Concat(RowTokens(row)) == WithoutSpaces(row)
  {
    var last := CharsFrom(row, 0, Scan([], ""));
    CharsFromText(row, 0, Scan([], ""));
    assert row[0..] == row;
    FlushText(last);
  }

  // ---------------------------------------------------------------------------------------
  // The character loop piece by piece.
  // ---------------------------------------------------------------------------------------

  lemma {:induction false} CharsFromShift(a: string, b: string, k: nat, st: Scan)
    requires k <= |b|
    ensures CharsFrom(a + b, |a| + k, st) == CharsFrom(b, k, st)
    decreases |b| - k
  {
    if k < |b| {
      assert (a + b)[|a| + k] == b[k];
      CharsFromShift(a, b, k + 1, Step(st, b[k]));
    }
  }

  /** Running the loop over `a + b` is running it over `a`, then over `b`. */
  lemma {:induction false} CharsFromConcat(a: string, b: string, j: nat, st: Scan)
    requires j <= |a|
    ensures CharsFrom(a + b, j, st) == CharsFrom(b, 0, CharsFrom(a, j, st))
    decreases |a| - j
  {
    if j < |a| {
      assert (a + b)[j] == a[j];
      CharsFromConcat(a, b, j + 1, Step(st, a[j]));
    } else {
      CharsFromShift(a, b, 0, st);
    }
  }

  /** A run of non-separators is appended to the pending token. */
  lemma {:induction false} CharsFromWord(w: string, j: nat, st: Scan)
    requires j <= |w| && Plain(w)
    ensures CharsFrom(w, j, st) == Scan(st.stored, st.pending + w[j..])
    decreases |w| - j
  {
    if j < |w| {
      CharsFromWord(w, j + 1, Step(st, w[j]));
      assert st.pending + [w[j]] + w[j + 1..] == st.pending + w[j..];
    } else {
      assert st.pending + w[j..] == st.pending;
    }
  }

  lemma CharsFromOne(c: char, st: Scan)
    ensures CharsFrom([c], 0, st) == Step(st, c)
  {
  }

  /** A row `f m(a)` of three separator-free words is stored as five slots. */
  lemma CallRowTokens(f: string, m: string, a: string)
    requires Plain(f) && Plain(m) && Plain(a) && |f| > 0 && |m| > 0 && |a| > 0
    ensures RowTokens(f + [' '] + m + ['('] + a + [')']) == [f, m, "(", a, ")"]
  {
    var e := Scan([], "");
    CharsFromWord(f, 0, e);
    assert f[0..] == f && "" + f == f;
    var s1 := CharsFrom(f, 0, e);
    assert s1 == Scan([], f);
    CharsFromConcat(f, [' '], 0, e);
    CharsFromOne(' ', s1);
    var s2 := CharsFrom(f + [' '], 0, e);
    assert s2 == Scan([f], "");
    CharsFromConcat(f + [' '], m, 0, e);
    CharsFromWord(m, 0, s2);
    assert m[0..] == m && "" + m == m;
    var s3 := CharsFrom(f + [' '] + m, 0, e);
    assert s3 == Scan([f], m);
    CharsFromConcat(f + [' '] + m, ['('], 0, e);
    CharsFromOne('(', s3);
    var s4 := CharsFrom(f + [' '] + m + ['('], 0, e);
    assert s4 == Scan([f, m, "("], "");
    CharsFromConcat(f + [' '] + m + ['('], a, 0, e);
    CharsFromWord(a, 0, s4);
    assert a[0..] == a && "" + a == a;
    var s5 := CharsFrom(f + [' '] + m + ['('] + a, 0, e);
    assert s5 == Scan([f, m, "("], a);
    CharsFromConcat(f + [' '] + m + ['('] + a, [')'], 0, e);
    CharsFromOne(')', s5);
  }

  /** The row `function main(args)` is stored as five slots, `args` and `)` apart. */
  lemma MainArgsRow()
    ensures RowTokens("function main(args)") == ["function", "main", "(", "args", ")"]
  {
    assert Plain("function") && Plain("main") && Plain("args");
    CallRowTokens("function", "main", "args");
    assert "function" + [' '] + "main" + ['('] + "args" + [')'] == "function main(args)";
  }
}
