/** The global tables of the C rewrite and the code that fills them in place: `TokenizeFile`
    (New-Compiler/Tokenization.c:23-77), `addConvertedToken` (106-110) and `Compile` (112-243). */
module CCompiler {
  import opened Base
  import opened CLexer
  import opened CTranslate

  /** `MAX_LINES` (Tokenization.c:8): the number of slots of each table. */
  const MaxLines := 5000

  /** The globals `fileContents`, `Tokens` and `convertedTokens` (Tokenization.c:11-14). A slot
      holds the string its C row spells up to the first NUL. */
  class Compiler {
    var fileContents: array<string>
    var tokens: array<string>
    var converted: array<string>

    /** The three tables are distinct arrays. */
    predicate Valid()
      reads this
    {
      fileContents != tokens && fileContents != converted && tokens != converted
    }

    /** The tables as the program starts, with the file's rows read into `fileContents`: every
        other slot is empty, as a zero-initialised global is. */
    constructor(rows: seq<string>)
      requires |rows| <= MaxLines && forall r :: r in rows ==> '\0' !in r
      ensures Valid() && fresh(fileContents) && fresh(tokens) && fresh(converted)
      ensures fileContents.Length == tokens.Length == converted.Length == MaxLines
      ensures fileContents[..|rows|] == rows
      ensures forall k :: |rows| <= k < MaxLines ==> fileContents[k] == ""
      ensures forall k :: 0 <= k < MaxLines ==> tokens[k] == "" && converted[k] == ""
    {
      fileContents := new string[MaxLines](k => if 0 <= k < |rows| then rows[k] else "");
      tokens := new string[MaxLines](_ => "");
      converted := new string[MaxLines](_ => "");
    }

    // -------------------------------------------------------------------------------------
    // TokenizeFile
    // -------------------------------------------------------------------------------------

    /** `strncpy(Tokens[tokenSpot], token, ...)` followed by `tokenSpot++`. */
    method Store(token: string, spot: nat) returns (spot': nat)
      requires spot < tokens.Length
      modifies tokens
      ensures spot' == spot + 1
      ensures tokens[..spot'] == old(tokens[..spot]) + [token]
      ensures forall k :: spot' <= k < tokens.Length ==> tokens[k] == old(tokens[k])
    {
      tokens[spot] := token;
      spot' := spot + 1;
    }

    /** One pass of the character loop (Tokenization.c:34-57) on character `c`, with
        `currentToken` holding `pending`. */
    method LexChar(c: char, spot: nat, pending: string, hasNonEmptyChar: bool)
      returns (spot': nat, pending': string, hasNonEmptyChar': bool)
      requires spot <= tokens.Length
      requires |pending| > 0 ==> hasNonEmptyChar
      requires |Step(Scan(tokens[..spot], pending), c).stored| <= tokens.Length
      modifies tokens
      ensures spot <= spot' <= tokens.Length
      ensures Scan(tokens[..spot'], pending') == Step(Scan(old(tokens[..spot]), pending), c)
      ensures forall k :: spot' <= k < tokens.Length ==> tokens[k] == old(tokens[k])
      ensures |pending'| > 0 ==> hasNonEmptyChar'
    {
      spot', pending', hasNonEmptyChar' := spot, pending, hasNonEmptyChar;
      if IsSeparator(c) {
        if |pending'| > 0 {
          spot' := Store(pending', spot');
          pending' := "";
        }
        if c != ' ' {
          spot' := Store([c], spot');
        }
      } else {
        pending' := pending' + [c];
        hasNonEmptyChar' := true;
      }
    }

    /** One row of `TokenizeFile` (Tokenization.c:30-66): the character loop with a fresh
        `tokenIndex`, then the flush of a non-empty pending token. */
    method TokenizeRow(i: nat, spot: nat) returns (spot': nat)
      requires Valid() && i < fileContents.Length && spot <= tokens.Length
      requires |RowEnd(fileContents[i], tokens[..spot])| <= tokens.Length
      modifies tokens
      ensures spot <= spot' <= tokens.Length
      ensures tokens[..spot'] == RowEnd(fileContents[i], old(tokens[..spot]))
      ensures forall k :: spot' <= k < tokens.Length ==> tokens[k] == old(tokens[k])
    {
      var row := fileContents[i];
      ghost var target := RowEnd(row, tokens[..spot]);
      var currentToken := "";
      var hasNonEmptyChar := false;
      spot' := spot;
      for j := 0 to |row|
        invariant spot <= spot' <= tokens.Length
        invariant Flush(CharsFrom(row, j, Scan(tokens[..spot'], currentToken))) == target
        invariant forall k :: spot' <= k < tokens.Length ==> tokens[k] == old(tokens[k])
        invariant |currentToken| > 0 ==> hasNonEmptyChar
      {
        ghost var next := Step(Scan(tokens[..spot'], currentToken), row[j]);
        CharsFromGrows(row, j + 1, next);
        spot', currentToken, hasNonEmptyChar := LexChar(row[j], spot', currentToken, hasNonEmptyChar);
      }
      if hasNonEmptyChar && |currentToken| > 0 {
        spot' := Store(currentToken, spot');
      }
    }

    /** The row loop of `TokenizeFile` (Tokenization.c:25-67): the tokens of every row of
        `fileContents`, stored from slot 0; the slots after them keep their contents. */
    method TokenizeRows() returns (count: nat)
      requires Valid()
      requires |Tokenize(fileContents[..])| <= tokens.Length
      modifies tokens
      ensures count == |Tokenize(fileContents[..])|
      ensures tokens[..count] == Tokenize(fileContents[..])
      ensures tokens[count..] == old(tokens[count..])
    {
      ghost var rows := fileContents[..];
      ghost var target := Tokenize(rows);
      var tokenSpot: nat := 0;
      for i := 0 to fileContents.Length
        invariant tokenSpot <= tokens.Length
        invariant RowsFrom(rows, i, tokens[..tokenSpot]) == target
        invariant forall k :: tokenSpot <= k < tokens.Length ==> tokens[k] == old(tokens[k])
      {
        RowsFromGrows(rows, i + 1, RowEnd(rows[i], tokens[..tokenSpot]));
        tokenSpot := TokenizeRow(i, tokenSpot);
      }
      count := tokenSpot;
    }

    /** `TokenizeFile` (Tokenization.c:23-77): the rows are tokenized into `Tokens`, then
        `Compile` runs over the whole table. */
    method TokenizeFile() returns (ok: bool)
      requires Valid()
      requires var t := Tokenize(fileContents[..]);
        |t| <= tokens.Length && |Compiled(t + tokens[|t|..]).out| <= converted.Length
      modifies tokens, converted
      ensures var t := Tokenize(fileContents[..]); tokens[..] == t + old(tokens[|t|..])
      ensures var r := Compiled(tokens[..]);
        ok == r.ok && converted[..|r.out|] == r.out && converted[|r.out|..] == old(converted[|r.out|..])
    {
      var count := TokenizeRows();
      assert tokens[..] == tokens[..count] + tokens[count..];
      ok := Compile();
    }

    // -------------------------------------------------------------------------------------
    // addConvertedToken and Compile
    // -------------------------------------------------------------------------------------

    /** `addConvertedToken` (Tokenization.c:106-110): `token` goes to slot `location`, the
        location moves on by one, and no other slot changes. */
    method AddConvertedToken(token: string, location: nat) returns (location': nat)
      requires location < converted.Length
      modifies converted
      ensures location' == location + 1
      ensures converted[..location'] == old(converted[..location]) + [token]
      ensures forall k :: location' <= k < converted.Length ==> converted[k] == old(converted[k])
    {
      converted[location] := token;
      location' := location + 1;
    }

    /** `Compile` (Tokenization.c:112-243, without the final `Finishing`): every slot of
        `Tokens` but the last is dispatched in order, writing `convertedTokens` from slot 0. */
    method Compile() returns (ok: bool)
      requires Valid()
      requires |Compiled(tokens[..]).out| <= converted.Length
      modifies converted
      ensures var r := Compiled(tokens[..]);
        ok == r.ok && converted[..|r.out|] == r.out && converted[|r.out|..] == old(converted[|r.out|..])
    {
      ghost var target := Compiled(tokens[..]);
      var convertedTokenLocation: nat := 0;
      var numTokens := tokens.Length;
      var i: nat := 0;
      while i + 1 < numTokens
        invariant convertedTokenLocation <= converted.Length
        invariant CompileFrom(tokens[..], i, converted[..convertedTokenLocation]) == target
        invariant forall k :: convertedTokenLocation <= k < converted.Length ==> converted[k] == old(converted[k])
        decreases numTokens - i
      {
        ok, convertedTokenLocation := DispatchAt(i, convertedTokenLocation);
        if !ok {
          return false;
        }
        i := i + 1;
      }
      return true;
    }

    /** One pass of `Compile`'s loop at slot `i` (Tokenization.c:123-239). */
    method DispatchAt(i: nat, location: nat) returns (ok: bool, location': nat)
      requires Valid() && i + 1 < tokens.Length && location <= converted.Length
      requires |Dispatch(tokens[..], i, converted[..location]).out| <= converted.Length
      modifies converted
      ensures location' <= converted.Length
      ensures Run(converted[..location'], ok) == Dispatch(tokens[..], i, old(converted[..location]))
      ensures forall k :: location' <= k < converted.Length ==> converted[k] == old(converted[k])
    {
      if tokens[i] == "function" && tokens[i + 1] == "main" {
        ok, location' := MainHeaderAt(i, location);
      } else if tokens[i] == "{" {
        location' := AddConvertedToken("{", location);
        ok := true;
      } else if tokens[i] == "}" {
        location' := AddConvertedToken("}", location);
        ok := true;
      } else if tokens[i] == "print" {
        ok, location' := PrintAt(i, location);
      } else if tokens[i] == "#include" {
        ok, location' := IncludeAt(i, location);
      } else if tokens[i] == "C" {
        ok, location' := CBlockAt(i, location);
      } else if tokens[i] == "int" {
        ok, location' := IntAt(i, location);
      } else if tokens[i] == "print.int" {
        ok, location' := PrintValueAt(i, location, IntFormat);
      } else if tokens[i] == "string" {
        ok, location' := StringAt(i, location);
      } else if tokens[i] == "print.string" {
        ok, location' := PrintValueAt(i, location, StringFormat);
      } else if tokens[i] == "realloc" {
        ok, location' := ReallocAt(i, location);
      } else {
        ok, location' := true, location;
      }
    }

    /** `function main (` (Tokenization.c:123-130). */
    method MainHeaderAt(i: nat, location: nat) returns (ok: bool, location': nat)
      requires Valid() && i + 1 < tokens.Length && location <= converted.Length
      requires |MainHeader(tokens[..], i, converted[..location]).out| <= converted.Length
      modifies converted
      ensures location' <= converted.Length
      ensures Run(converted[..location'], ok) == MainHeader(tokens[..], i, old(converted[..location]))
      ensures forall k :: location' <= k < converted.Length ==> converted[k] == old(converted[k])
    {
      location' := location;
      if i + 2 >= tokens.Length {
        return false, location';
      }
      if tokens[i + 2] != "(" {
        return true, location';
      }
      location' := AddConvertedToken("int main(", location');
      if i + 4 >= tokens.Length {
        return false, location';
      }
      if tokens[i + 4] == "args)" {
        location' := AddConvertedToken("int argc, char** argv)", location');
      } else {
        location' := AddConvertedToken(")", location');
      }
      ok := true;
    }

    /** `print` (Tokenization.c:139-159). */
    method PrintAt(i: nat, location: nat) returns (ok: bool, location': nat)
      requires Valid() && i + 1 < tokens.Length && location <= converted.Length
      requires |PrintText(tokens[..], i, converted[..location]).out| <= converted.Length
      modifies converted
      ensures location' <= converted.Length
      ensures Run(converted[..location'], ok) == PrintText(tokens[..], i, old(converted[..location]))
      ensures forall k :: location' <= k < converted.Length ==> converted[k] == old(converted[k])
    {
      ghost var t := tokens[..];
      ghost var o := converted[..location] + ["printf(\""];
      if i + 2 < tokens.Length && tokens[i + 2] == "\"" {
        assert o <= PrintLoop(t, i + 3, o).out;
      }
      location' := AddConvertedToken("printf(\"", location);
      if i + 2 >= tokens.Length {
        return false, location';
      }
      if tokens[i + 2] != "\"" {
        return true, location';
      }
      ok, location' := PrintQuoted(i + 3, location');
      if ok {
        location' := AddConvertedToken(");", location');
      }
    }

    /** The copy loop of `print` (Tokenization.c:144-156) from slot `first`. */
    method PrintQuoted(first: nat, location: nat) returns (ok: bool, location': nat)
      requires Valid() && location <= converted.Length
      requires |PrintLoop(tokens[..], first, converted[..location]).out| <= converted.Length
      modifies converted
      ensures location' <= converted.Length
      ensures Run(converted[..location'], ok) == PrintLoop(tokens[..], first, old(converted[..location]))
      ensures forall k :: location' <= k < converted.Length ==> converted[k] == old(converted[k])
    {
      ghost var t := tokens[..];
      ghost var target := PrintLoop(t, first, converted[..location]);
      location' := location;
      var z := first;
      while z < tokens.Length
        invariant location' <= converted.Length
        invariant PrintLoop(t, z, converted[..location']) == target
        invariant forall k :: location' <= k < converted.Length ==> converted[k] == old(converted[k])
        decreases tokens.Length - z
      {
        if tokens[z] == "\"" {
          location' := AddConvertedToken("\"", location');
          return true, location';
        }
        ghost var before := converted[..location'];
        if z + 1 < tokens.Length {
          assert before + [tokens[z]] + (if tokens[z + 1] != "\"" then [" "] else []) <= target.out;
        }
        location' := AddConvertedToken(tokens[z], location');
        if z + 1 >= tokens.Length {
          return false, location';
        }
        if tokens[z + 1] != "\"" {
          location' := AddConvertedToken(" ", location');
        }
        z := z + 1;
      }
      ok := true;
    }

    /** `#include` (Tokenization.c:160-167). */
    method IncludeAt(i: nat, location: nat) returns (ok: bool, location': nat)
      requires Valid() && i + 1 < tokens.Length && location <= converted.Length
      requires |Include(tokens[..], i, converted[..location]).out| <= converted.Length
      modifies converted
      ensures location' <= converted.Length
      ensures Run(converted[..location'], ok) == Include(tokens[..], i, old(converted[..location]))
      ensures forall k :: location' <= k < converted.Length ==> converted[k] == old(converted[k])
    {
      location' := AddConvertedToken("#include", location);
      if tokens[i + 1] == "dawnlang.io" {
        location' := AddConvertedToken("<stdio.h>\n", location');
      } else if tokens[i + 1] == "dawnlang.data.types" {
        location' := AddConvertedToken("<string.h>\n", location');
      }
      ok := true;
    }

    /** `C` (Tokenization.c:168-184). */
    method CBlockAt(i: nat, location: nat) returns (ok: bool, location': nat)
      requires Valid() && i + 1 < tokens.Length && location <= converted.Length
      requires |CBlock(tokens[..], i, converted[..location]).out| <= converted.Length
      modifies converted
      ensures location' <= converted.Length
      ensures Run(converted[..location'], ok) == CBlock(tokens[..], i, old(converted[..location]))
      ensures forall k :: location' <= k < converted.Length ==> converted[k] == old(converted[k])
    {
      if tokens[i + 1] == "[" {
        ok, location' := CopyBlock(i + 2, location);
      } else {
        ok, location' := true, location;
      }
    }

    /** The copy loop of `C [` (Tokenization.c:171-183) from slot `first`. */
    method CopyBlock(first: nat, location: nat) returns (ok: bool, location': nat)
      requires Valid() && location <= converted.Length
      requires |CopyLoop(tokens[..], first, converted[..location]).out| <= converted.Length
      modifies converted
      ensures location' <= converted.Length
      ensures Run(converted[..location'], ok) == CopyLoop(tokens[..], first, old(converted[..location]))
      ensures forall k :: location' <= k < converted.Length ==> converted[k] == old(converted[k])
    {
      ghost var t := tokens[..];
      ghost var target := CopyLoop(t, first, converted[..location]);
      location' := location;
      var z := first;
      while z < tokens.Length
        invariant location' <= converted.Length
        invariant CopyLoop(t, z, converted[..location']) == target
        invariant forall k :: location' <= k < converted.Length ==> converted[k] == old(converted[k])
        decreases tokens.Length - z
      {
        if z + 1 >= tokens.Length {
          return false, location';
        }
        if tokens[z + 1] == "-" {
          return true, location';
        }
        if z + 2 >= tokens.Length {
          return false, location';
        }
        if tokens[z + 2] == "End" {
          return true, location';
        }
        ghost var before := converted[..location'];
        if tokens[z + 1] == " " {
          assert before + [tokens[z], tokens[z + 1]] <= target.out;
        } else {
          assert before + [tokens[z]] <= target.out;
        }
        location' := AddConvertedToken(tokens[z], location');
        if tokens[z + 1] == " " {
          location' := AddConvertedToken(tokens[z + 1], location');
          assert converted[..location'] == before + [tokens[z], tokens[z + 1]];
          z := z + 1;
        }
        z := z + 1;
      }
      ok := true;
    }

    /** `int` (Tokenization.c:185-199); the `Ints` bookkeeping is not modelled. */
    method IntAt(i: nat, location: nat) returns (ok: bool, location': nat)
      requires Valid() && i + 1 < tokens.Length && location <= converted.Length
      requires |IntDecl(tokens[..], i, converted[..location]).out| <= converted.Length
      modifies converted
      ensures location' <= converted.Length
      ensures Run(converted[..location'], ok) == IntDecl(tokens[..], i, old(converted[..location]))
      ensures forall k :: location' <= k < converted.Length ==> converted[k] == old(converted[k])
    {
      location' := AddConvertedToken(tokens[i], location);
      location' := AddConvertedToken(" ", location');
      location' := AddConvertedToken(tokens[i + 1], location');
      if i + 2 >= tokens.Length {
        return false, location';
      }
      if tokens[i + 2] == "=" {
        location' := AddConvertedToken(tokens[i + 2], location');
        if i + 3 >= tokens.Length {
          return false, location';
        }
        location' := AddConvertedToken(tokens[i + 3], location');
      }
      location' := AddConvertedToken(";", location');
      ok := true;
    }

    /** `print.int` and `print.string` (Tokenization.c:200-205, 216-221). */
    method PrintValueAt(i: nat, location: nat, format: string) returns (ok: bool, location': nat)
      requires Valid() && i + 1 < tokens.Length && location <= converted.Length
      requires |PrintValue(tokens[..], i, converted[..location], format).out| <= converted.Length
      modifies converted
      ensures location' <= converted.Length
      ensures Run(converted[..location'], ok) == PrintValue(tokens[..], i, old(converted[..location]), format)
      ensures forall k :: location' <= k < converted.Length ==> converted[k] == old(converted[k])
    {
      location' := AddConvertedToken(format, location);
      if i + 2 >= tokens.Length {
        return false, location';
      }
      location' := AddConvertedToken(tokens[i + 2], location');
      location' := AddConvertedToken(");", location');
      ok := true;
    }

    /** `string` (Tokenization.c:206-215). */
    method StringAt(i: nat, location: nat) returns (ok: bool, location': nat)
      requires Valid() && i + 1 < tokens.Length && location <= converted.Length
      requires |StringDecl(tokens[..], i, converted[..location]).out| <= converted.Length
      modifies converted
      ensures location' <= converted.Length
      ensures Run(converted[..location'], ok) == StringDecl(tokens[..], i, old(converted[..location]))
      ensures forall k :: location' <= k < converted.Length ==> converted[k] == old(converted[k])
    {
      location' := AddConvertedToken("char ", location);
      location' := AddConvertedToken(tokens[i + 1], location');
      location' := AddConvertedToken("[]", location');
      ok, location' := CopySlots(i + 2, i + 7, location');
      if ok {
        location' := AddConvertedToken(";", location');
      }
    }

    /** The loop of `string` (Tokenization.c:212-213): slots `first` to `last - 1` are copied in
        order; a slot past the end of `Tokens` stops the copy as a failed run. */
    method CopySlots(first: nat, last: nat, location: nat) returns (ok: bool, location': nat)
      requires Valid() && first <= last && first <= tokens.Length && location <= converted.Length
      requires location + (if last <= tokens.Length then last - first else tokens.Length - first) <= converted.Length
      modifies converted
      ensures ok == (last <= tokens.Length)
      ensures location' == location + (if ok then last - first else tokens.Length - first)
      ensures converted[..location'] == old(converted[..location]) + (if ok then tokens[first..last] else tokens[first..])
      ensures forall k :: location' <= k < converted.Length ==> converted[k] == old(converted[k])
    {
      ghost var head := converted[..location];
      location' := location;
      var z := first;
      while z < last
        invariant first <= z <= last && z <= tokens.Length
        invariant location' == location + (z - first)
        invariant converted[..location'] == head + tokens[first..z]
        invariant forall k :: location' <= k < converted.Length ==> converted[k] == old(converted[k])
      {
        if z >= tokens.Length {
          assert tokens[first..] == tokens[first..z];
          return false, location';
        }
        location' := AddConvertedToken(tokens[z], location');
        assert tokens[first..z + 1] == tokens[first..z] + [tokens[z]];
        z := z + 1;
      }
      ok := true;
    }

    /** `realloc` (Tokenization.c:222-239). */
    method ReallocAt(i: nat, location: nat) returns (ok: bool, location': nat)
      requires Valid() && i + 1 < tokens.Length && location <= converted.Length
      requires |Realloc(tokens[..], i, converted[..location]).out| <= converted.Length
      modifies converted
      ensures location' <= converted.Length
      ensures Run(converted[..location'], ok) == Realloc(tokens[..], i, old(converted[..location]))
      ensures forall k :: location' <= k < converted.Length ==> converted[k] == old(converted[k])
    {
      location' := AddConvertedToken("strncpy(", location);
      if i + 2 >= tokens.Length {
        return false, location';
      }
      location' := AddConvertedToken(tokens[i + 2], location');
      location' := AddConvertedToken("\"", location');
      if i + 4 >= tokens.Length {
        return false, location';
      }
      location' := AddConvertedToken(tokens[i + 4], location');
      location' := AddConvertedToken("\"", location');
      location' := AddConvertedToken(",", location');
      location' := AddConvertedToken("sizeof(", location');
      var length := |tokens[i + 2]|;
      if length == 0 {
        return false, location';
      }
      var modified := tokens[i + 2][..length - 1];
      location' := AddConvertedToken(modified, location');
      location' := AddConvertedToken("));", location');
      ok := true;
    }
  }

  /** A table `TokenizeFile` filled from all-empty slots satisfies `LexedTable`, so the
      dead-branch lemmas of `CTranslate` apply to what `Compile` then reads. */
  lemma FilledTableIsLexed(rows: seq<string>, rest: seq<string>)
    requires forall k :: 0 <= k < |rest| ==> rest[k] == ""
    ensures LexedTable(Tokenize(rows) + rest)
  {
    TokenizeGivesTokens(rows);
    var t := Tokenize(rows) + rest;
    forall k | 0 <= k < |t|
      ensures t[k] == "" || IsToken(t[k])
    {
      if k >= |Tokenize(rows)| {
        assert t[k] == rest[k - |Tokenize(rows)|];
      }
    }
  }
}
