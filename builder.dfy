/** The C# compiler's `Builder` (Builder.cs): its static lists become the fields of one object,
    and every pass is a method that updates them in place, proved against the functions of
    `BuilderLexer`, `BuilderScan` and `BuilderConvert`. A method returns `ok == false` where the
    source throws (the `catch` in `BuildFile` then ends the run) or exits. */
module Builder {
  import opened Base
  import opened BuilderLexer
  import opened BuilderScan
  import opened BuilderConvert

  class Builder {
    var lines: seq<string>
    var tokens: seq<string>
    var converted: seq<string>
    var intVars: seq<string>
    var stringVars: seq<string>
    var boolVars: seq<string>
    var imports: seq<string>
    var functionNames: seq<string>
    var intListNames: seq<string>

    /** The value of all nine lists. */
    function State(): Pipeline
      reads this
    {
      Pipeline(lines, tokens, converted, intVars, stringVars, boolVars, imports, functionNames, intListNames)
    }

    /** Every list starts out empty (Builder.cs:10-18). */
    constructor ()
      ensures State() == Initial
    {
      lines, tokens, converted := [], [], [];
      intVars, stringVars, boolVars := [], [], [];
      imports, functionNames, intListNames := [], [], [];
    }

    // -------------------------------------------------------------------------------------
    // ReadFile (Builder.cs:42-116)
    // -------------------------------------------------------------------------------------

    /** Reads the file at `path` (looked up in `files`) into `lines` and appends its tokens to
        `tokens`; a missing file is an exit. */
    method ReadFile(path: string, files: Files) returns (ok: bool)
      modifies this`lines, this`tokens
      ensures ok <==> path in files && ReadInto(old(State()), files[path]).Some?
      ensures ok ==> State() == ReadInto(old(State()), files[path]).value
    {
      lines := [];
      if path !in files {
        return false;
      }
      lines := files[path];
      ok := TokenizeLines();
    }

    /** The line loop of `ReadFile` (Builder.cs:68-115) over `lines`, appending to `tokens`. */
    method TokenizeLines() returns (ok: bool)
      modifies this`lines, this`tokens
      ensures ScanLines(old(lines), 0, old(tokens)) == if ok then Some((lines, tokens)) else None
    {
      ghost var target := ScanLines(lines, 0, tokens);
      var i: nat := 0;
      while i < |lines|
        invariant ScanLines(lines, i, tokens) == target
        decreases |lines| - i
      {
        var lineOk, last := TokenizeLine(i);
        if !lineOk {
          return false;
        }
        i := last + 1;
      }
      ScanLinesDone(lines, i, tokens);
      return true;
    }

    /** One pass of the line loop from line `i`: the line gets its `;`, then the character loop
        runs, ending on line `last` (past `i` when a comment moved the cursor). */
    method TokenizeLine(i: nat) returns (ok: bool, last: nat)
      requires i < |lines|
      modifies this`lines, this`tokens
      ensures |lines| == |old(lines)|
      ensures !ok ==> ScanLines(old(lines), i, old(tokens)) == None
      ensures ok ==> i <= last < |lines| && ScanLines(old(lines), i, old(tokens)) == ScanLines(lines, last + 1, tokens)
    {
      ghost var unterminated := lines;
      ghost var tokensBefore := tokens;
      TerminateLine(i);
      ok, last := LexLineAt(i);
      if ok {
        ScanLinesAfterLine(unterminated, i, tokensBefore, last, tokens);
      } else {
        ScanLinesUnfold(unterminated, i, tokensBefore);
      }
    }

    /** Appends `;` to line `i` when it lacks one (Builder.cs:71-72). */
    method TerminateLine(i: nat)
      requires i < |lines|
      modifies this`lines
      ensures lines == TerminateAt(old(lines), i)
    {
      if !EndsInSemicolon(lines[i]) {
        lines := lines[i := lines[i] + ";"];
      }
    }

    /** The character loop of `ReadFile` over line `i` (Builder.cs:77-114), with a fresh
        `TokenString` and `Quotation`; the comment test moves the line cursor inside it. */
    method LexLineAt(first: nat) returns (ok: bool, i: nat)
      requires first < |lines|
      modifies this`tokens
      ensures !ok ==> ScanLine(old(lines), first, 0, LexState(old(tokens), "", false)) == None
      ensures ok ==> ScanLine(old(lines), first, 0, LexState(old(tokens), "", false)) == Some((i, tokens))
    {
      ghost var target := ScanLine(lines, first, 0, LexState(tokens, "", false));
      i := first;
      var tokenString := "";
      var quotation := false;
      var j := 0;
      while j < |lines[i]|
        invariant first <= i < |lines|
        invariant ScanLine(lines, i, j, LexState(tokens, tokenString, quotation)) == target
        decreases |lines| - i, |lines[i]| - j
      {
        ghost var before := LexState(tokens, tokenString, quotation);
        ScanLineUnfold(lines, i, j, before);
        if IsComment(lines[i]) {
          i := i + 1;
        }
        if i >= |lines| || j >= |lines[i]| {
          return false, i;
        }
        var c := lines[i][j];
        if c == '"' && !quotation {
          quotation := true;
        } else if c == '"' && quotation {
          quotation := false;
        }
        if c == ' ' && quotation {
          tokenString := tokenString + " ";
        } else if c == ',' && quotation {
          tokenString := tokenString + ",";
        } else if !IsDelimiter(c) {
          tokenString := tokenString + [c];
        } else {
          tokens := tokens + [tokenString];
          if IsKeptDelimiter(c) {
            tokens := tokens + [[c]];
          }
          tokenString := "";
        }
        assert LexState(tokens, tokenString, quotation) == Step(before, c);
        j := j + 1;
      }
      return true, i;
    }

    // -------------------------------------------------------------------------------------
    // SearchForFunctions (Builder.cs:122-131) and CheckForImports (Builder.cs:133-157)
    // -------------------------------------------------------------------------------------

    /** Appends the name after every `function` token other than `main` to `functionNames`;
        fails where `Tokens[i + 1]` is out of range. */
    method SearchForFunctions() returns (ok: bool)
      modifies this`functionNames
      ensures ok <==> SearchIn(old(State())).Some?
      ensures ok ==> State() == SearchIn(old(State())).value
      ensures !ok ==> State() == old(State()).(functionNames := functionNames)
    {
      ghost var added: seq<string> := [];
      for i := 0 to |tokens|
        invariant tokens == old(tokens)
        invariant DeclaredNames(tokens, i) == Some(added)
        invariant State() == old(State()).(functionNames := old(functionNames) + added)
      {
        if tokens[i] == "function" {
          if i + 1 >= |tokens| {
            assert DeclaredNames(tokens, i + 1) == None;
            return false;
          }
          if tokens[i + 1] != "main" {
            functionNames := functionNames + [tokens[i + 1]];
            added := added + [tokens[i + 1]];
          }
        }
        assert DeclaredNames(tokens, i + 1) == Some(added);
      }
      return true;
    }

    /** Adds the header each used DawnLang operation needs to `imports`, once. */
    method CheckForImports()
      modifies this`imports
      ensures State() == CheckIn(old(State()))
    {
      var functionsRequiringImports := FunctionsRequiringImports;
      var correspondingImport := CorrespondingImport;
      for i := 0 to |functionsRequiringImports|
        invariant imports == ResolveImports(tokens, old(imports), i)
        invariant State() == old(State()).(imports := imports)
      {
        if functionsRequiringImports[i] in tokens && correspondingImport[i] !in imports {
          imports := imports + [correspondingImport[i]];
        }
      }
    }

    // -------------------------------------------------------------------------------------
    // ConvertTokens (Builder.cs:159-302)
    // -------------------------------------------------------------------------------------

    /** `ConvertedTokens[ConvertedTokens.Count - 1] += suffix`. */
    method AppendToLast(suffix: string)
      requires |converted| > 0
      modifies this`converted
      ensures State() == Append(old(State()), suffix)
    {
      converted := converted[..|converted| - 1] + [converted[|converted| - 1] + suffix];
    }

    /** An `int` (isInt) or `string` parameter at `j` of a function header: its entry, its
        variable, and the two `Tokens.Remove` calls (Builder.cs:206-221). */
    method AddParameter(j: nat, isInt: bool) returns (ok: bool)
      requires j < |tokens|
      modifies this`converted, this`tokens, this`intVars, this`stringVars
      ensures ok <==> Param(old(State()), j, isInt).Some?
      ensures ok ==> State() == Param(old(State()), j, isInt).value
    {
      if j + 3 >= |tokens| {
        return false;
      }
      var name := tokens[j + 1];
      var entry := if isInt then "int " + name else "char " + name + "[]";
      var comma := if tokens[j + 3] != "{" then "," else "";
      converted := converted + [entry + comma];
      if isInt {
        intVars := intVars + [name];
      } else {
        stringVars := stringVars + [name];
      }
      tokens := RemoveFirst(tokens, tokens[j]);
      tokens := RemoveFirst(tokens, tokens[j + 1]);
      return true;
    }

    /** One pass of the parameter loop body; `stop` is its `break`. */
    method ParameterStep(j: nat) returns (ok: bool, stop: bool)
      requires j < |tokens|
      modifies this`converted, this`tokens, this`intVars, this`stringVars
      ensures ok <==> ParamIteration(old(State()), j).Some?
      ensures ok ==> (State(), stop) == ParamIteration(old(State()), j).value
    {
      ok, stop := true, false;
      if tokens[j] == "int" {
        ok := AddParameter(j, true);
        if !ok {
          return;
        }
      }
      if tokens[j] == "string" {
        ok := AddParameter(j, false);
      } else {
        stop := tokens[j] == "}";
      }
    }

    /** The parameter loop of a function header from `first` on, closed by `){`
        (Builder.cs:203-224). */
    method CollectParameters(first: nat) returns (ok: bool)
      modifies this`converted, this`tokens, this`intVars, this`stringVars
      ensures ok <==> ParamLoop(old(State()), first).Some?
      ensures ok ==> State() == ParamLoop(old(State()), first).value
    {
      ghost var target := ParamLoop(State(), first);
      var j: nat := first;
      while j < |tokens|
        invariant ParamLoop(State(), j) == target
        decreases |tokens| - j
      {
        var stop;
        ok, stop := ParameterStep(j);
        if !ok {
          return;
        }
        if stop {
          assert target == Some(Emit(State(), "){"));
          break;
        }
        assert target == ParamLoop(State(), j + 1);
        j := j + 1;
      }
      converted := converted + ["){"];
      return true;
    }

    /** One pass of the argument loop body of a call; `stop` is its `break`
        (Builder.cs:273-293). */
    method ArgumentStep(j: nat) returns (ok: bool, stop: bool)
      requires j < |tokens|
      modifies this`converted, this`tokens
      ensures ok <==> CallIteration(old(State()), j).Some?
      ensures ok ==> (State(), stop) == CallIteration(old(State()), j).value
    {
      if j + 1 >= |tokens| {
        return false, false;
      }
      // The `int` and `string` branches of the source have the same body.
      if tokens[j + 1] in intVars || tokens[j + 1] in stringVars {
        if j + 2 >= |tokens| {
          return false, false;
        }
        var comma := if tokens[j + 2] == "," then "," else "";
        converted := converted + [tokens[j + 1] + comma];
        tokens := RemoveFirst(tokens, tokens[j + 1]);
        return true, false;
      }
      return true, tokens[j] == ")";
    }

    /** The argument loop of a call from `first` on, closed by `);` (Builder.cs:272-294). */
    method CollectArguments(first: nat) returns (ok: bool)
      requires |converted| > 0
      modifies this`converted, this`tokens
      ensures ok <==> CallLoop(old(State()), first).Some?
      ensures ok ==> State() == CallLoop(old(State()), first).value
    {
      ghost var target := CallLoop(State(), first);
      var j: nat := first;
      while j < |tokens|
        invariant |converted| > 0
        invariant CallLoop(State(), j) == target
        decreases |tokens| - j
      {
        var stop;
        ok, stop := ArgumentStep(j);
        if !ok {
          return;
        }
        if stop {
          assert target == Some(Append(State(), ");"));
          break;
        }
        assert target == CallLoop(State(), j + 1);
        j := j + 1;
      }
      AppendToLast(");");
      return true;
    }

    /** The element loop of a list literal from `first` on (Builder.cs:246-253). */
    method AppendListItems(first: nat)
      requires |converted| > 0
      modifies this`converted
      ensures State() == ListLoop(old(State()), first)
    {
      ghost var target := ListLoop(State(), first);
      var z: nat := first;
      while z < |tokens|
        invariant |converted| > 0
        invariant ListLoop(State(), z) == target
        decreases |tokens| - z
      {
        if tokens[z] != "]" {
          AppendToLast(tokens[z]);
        } else {
          AppendToLast("};");
          return;
        }
        z := z + 1;
      }
    }

    /** Reassignment of a known `int` or `bool` variable at `i` (Builder.cs:262-267). */
    method ReassignAt(i: nat, declarer: string, vars: seq<string>) returns (ok: bool)
      requires i < |tokens|
      modifies this`converted
      ensures ok <==> Reassign(old(State()), i, declarer, vars).Some?
      ensures ok ==> State() == Reassign(old(State()), i, declarer, vars).value
    {
      if tokens[i] !in vars {
        return true;
      }
      if i == 0 {
        return false;
      }
      if tokens[i - 1] != declarer {
        if i + 1 >= |tokens| {
          return false;
        }
        if tokens[i + 1] == "=" {
          if i + 2 >= |tokens| {
            return false;
          }
          converted := converted + [tokens[i] + " " + tokens[i + 1] + " " + tokens[i + 2] + ";"];
        }
      }
      return true;
    }

    /** The `default` case (Builder.cs:260-296). */
    method DefaultAt(i: nat) returns (ok: bool)
      requires i < |tokens|
      modifies this`converted, this`tokens
      ensures ok <==> Default(old(State()), i).Some?
      ensures ok ==> State() == Default(old(State()), i).value
    {
      ok := ReassignAt(i, "int", intVars);
      if !ok {
        return;
      }
      ok := ReassignAt(i, "bool", boolVars);
      if !ok {
        return;
      }
      if tokens[i] !in functionNames {
        return true;
      }
      if i == 0 {
        return false;
      }
      if tokens[i - 1] != "function" {
        converted := converted + [tokens[i] + "("];
        ok := CollectArguments(i);
      }
    }

    /** Every case of the `switch (Tokens[i])` except `#include` (Builder.cs:166-297). */
    method ConvertKeywordAt(i: nat) returns (ok: bool)
      requires i < |tokens| && CaseOf(tokens[i]) != IncludeFile
      modifies this`converted, this`tokens, this`intVars, this`stringVars, this`boolVars, this`intListNames
      ensures ok <==> ConvertKeyword(old(State()), i).Some?
      ensures ok ==> State() == ConvertKeyword(old(State()), i).value
    {
      var n := |tokens|;
      ok := true;
      match CaseOf(tokens[i])
      case Print =>
        if i + 1 >= n {
          return false;
        }
        converted := converted + ["printf(" + tokens[i + 1] + ");"];
      case PrintStr =>
        if i + 1 >= n {
          return false;
        }
        converted := converted + ["printf(\"%s\\n\"," + tokens[i + 1] + ");"];
      case IntDecl =>
        if i + 3 >= n {
          return false;
        }
        converted := converted + ["int " + tokens[i + 1] + tokens[i + 2] + tokens[i + 3] + ";"];
        intVars := intVars + [tokens[i + 1]];
      case BoolDecl =>
        if i + 3 >= n {
          return false;
        }
        converted := converted + ["bool " + tokens[i + 1] + " = " + tokens[i + 3] + ";"];
        boolVars := boolVars + [tokens[i + 1]];
      case StringDecl =>
        if i + 3 >= n {
          return false;
        }
        converted := converted + ["char " + tokens[i + 1] + "[]" + tokens[i + 2] + tokens[i + 3] + ";"];
        stringVars := stringVars + [tokens[i + 1]];
      case PrintInt =>
        if i + 1 >= n {
          return false;
        }
        converted := converted + ["printf(\"%d\\n\"," + tokens[i + 1] + ");"];
      case For =>
        if i + 5 >= n {
          return false;
        }
        converted := converted + ["for(int i = " + tokens[i + 3] + "; i <= " + tokens[i + 5] + "; i++){"];
      case Then =>
        if i + 1 >= n {
          return false;
        }
        if tokens[i + 1] == "end" {
          converted := converted + ["};"];
        }
      case If =>
        if i + 3 >= n {
          return false;
        }
        converted := converted + ["if(" + tokens[i + 1] + tokens[i + 2] + tokens[i + 3] + "){"];
      case Else =>
        if i + 1 >= n {
          return false;
        }
        var brace := if tokens[i + 1] != "if" then "{" else "";
        converted := converted + ["else" + brace];
      case CloseBrace =>
        converted := converted + ["}"];
      case FunctionDecl =>
        ok := ConvertBlockAt(i);
      case ListDecl =>
        ok := ConvertBlockAt(i);
      case PrintListElement =>
        ok := ConvertBlockAt(i);
      case Other =>
        ok := ConvertBlockAt(i);
    }

    /** The cases of the switch that run a loop or read the variable lists: `function`,
        `List<int>`, `print_list_element` and `default`. */
    method ConvertBlockAt(i: nat) returns (ok: bool)
      requires i < |tokens| && CaseOf(tokens[i]) in {FunctionDecl, ListDecl, PrintListElement, Other}
      modifies this`converted, this`tokens, this`intVars, this`stringVars, this`boolVars, this`intListNames
      ensures ok <==> ConvertKeyword(old(State()), i).Some?
      ensures ok ==> State() == ConvertKeyword(old(State()), i).value
    {
      match CaseOf(tokens[i])
      case FunctionDecl =>
        ok := FunctionDeclarationAt(i);
      case ListDecl =>
        ok := ListDeclarationAt(i);
      case PrintListElement =>
        ok := ListElementAt(i);
      case Other =>
        ok := DefaultAt(i);
    }

    /** `print_list_element NAME [ INDEX ]` of a known list (Builder.cs:257-259). */
    method ListElementAt(i: nat) returns (ok: bool)
      requires i < |tokens| && CaseOf(tokens[i]) == PrintListElement
      modifies this`converted
      ensures ok <==> ConvertKeyword(old(State()), i).Some?
      ensures ok ==> State() == ConvertKeyword(old(State()), i).value
    {
      if i + 1 >= |tokens| {
        return false;
      }
      if tokens[i + 1] in intListNames {
        if i + 4 >= |tokens| {
          return false;
        }
        converted := converted + ["printf(\"%d\\n\", " + tokens[i + 1] + "[" + tokens[i + 4] + "]);"];
      }
      return true;
    }

    /** `function NAME`: `int main(){` for `main`, else a `void` header (Builder.cs:197-226). */
    method FunctionDeclarationAt(i: nat) returns (ok: bool)
      requires i < |tokens| && CaseOf(tokens[i]) == FunctionDecl
      modifies this`converted, this`tokens, this`intVars, this`stringVars
      ensures ok <==> ConvertKeyword(old(State()), i).Some?
      ensures ok ==> State() == ConvertKeyword(old(State()), i).value
    {
      if i + 1 >= |tokens| {
        return false;
      }
      if tokens[i + 1] == "main" {
        converted := converted + ["int main(){"];
        return true;
      }
      converted := converted + ["void " + tokens[i + 1] + "("];
      ok := CollectParameters(i);
    }

    /** `List<int> NAME = [ ... ]` (Builder.cs:243-256). */
    method ListDeclarationAt(i: nat) returns (ok: bool)
      requires i < |tokens| && CaseOf(tokens[i]) == ListDecl
      modifies this`converted, this`intListNames
      ensures ok <==> ConvertKeyword(old(State()), i).Some?
      ensures ok ==> State() == ConvertKeyword(old(State()), i).value
    {
      if i + 1 >= |tokens| {
        return false;
      }
      intListNames := intListNames + [tokens[i + 1]];
      converted := converted + ["int " + tokens[i + 1] + "[] = {"];
      AppendListItems(i + 5);
      return true;
    }

    /** `#include PATH` (Builder.cs:238-242): reads the file, appending its tokens, then runs
        both scans again; `fuel` bounds how many includes may still be followed. */
    method IncludeAt(i: nat, files: Files, fuel: nat) returns (ok: bool, fuel': nat)
      requires i < |tokens|
      modifies this
      ensures ok <==> Include(old(State()), i, files, fuel).Some?
      ensures ok ==> (State(), fuel') == Include(old(State()), i, files, fuel).value
    {
      if i + 1 >= |tokens| || fuel == 0 {
        return false, fuel;
      }
      ok := ReadFile(tokens[i + 1], files);
      if !ok {
        return false, fuel;
      }
      ok := SearchForFunctions();
      if !ok {
        return false, fuel;
      }
      CheckForImports();
      return true, fuel - 1;
    }

    /** One pass of the `ConvertTokens` loop body: the `switch (Tokens[i])`. */
    method ConvertToken(i: nat, files: Files, fuel: nat) returns (ok: bool, fuel': nat)
      requires i < |tokens|
      modifies this
      ensures ok <==> ConvertAt(old(State()), i, files, fuel).Some?
      ensures ok ==> (State(), fuel') == ConvertAt(old(State()), i, files, fuel).value
    {
      if CaseOf(tokens[i]) == IncludeFile {
        ok, fuel' := IncludeAt(i, files, fuel);
      } else {
        ok := ConvertKeywordAt(i);
        fuel' := fuel;
      }
    }

    /** Translates `tokens` into `converted`, re-reading `Tokens.Count` on every pass. */
    method ConvertTokens(files: Files, fuel: nat) returns (ok: bool)
      modifies this
      ensures ok <==> Convert(old(State()), files, fuel).Some?
      ensures ok ==> State() == Convert(old(State()), files, fuel).value
    {
      ghost var target := Convert(State(), files, fuel);
      var budget := fuel;
      var i: nat := 0;
      while i < |tokens|
        invariant ConvertFrom(State(), i, files, budget) == target
        decreases budget, |tokens| - i
      {
        var budget';
        ok, budget' := ConvertToken(i, files, budget);
        if !ok {
          return;
        }
        assert target == ConvertFrom(State(), i + 1, files, budget');
        i, budget := i + 1, budget';
      }
      return true;
    }

    // -------------------------------------------------------------------------------------
    // CreateCFile (Builder.cs:304-317) and BuildFile (Builder.cs:20-40)
    // -------------------------------------------------------------------------------------

    /** The lines `CreateCFile` writes to the C file, in order. */
    method CreateCFile() returns (written: seq<string>)
      ensures written == CFileLines(imports, converted)
    {
      written := [];
      for i := 0 to |imports|
        invariant |written| == i
        invariant forall k :: 0 <= k < i ==> written[k] == "#include " + imports[k] + "\n"
      {
        written := written + ["#include " + imports[i] + "\n"];
      }
      ghost var headers := written;
      for k := 0 to |converted|
        invariant written == headers + converted[..k]
      {
        written := written + [converted[k]];
      }
      assert converted[..|converted|] == converted;
      CFileLinesOf(imports, converted, headers);
    }

    /** The whole translation of the file at `path` up to the C text; None where the
        source's `catch` or an exit ends the run. */
    static method BuildFile(path: string, files: Files, fuel: nat) returns (output: Option<seq<string>>)
      ensures output == if path in files then Build(files[path], files, fuel) else None
    {
      var builder := new Builder();
      var ok := builder.ReadFile(path, files);
      if !ok {
        return None;
      }
      ok := builder.SearchForFunctions();
      if !ok {
        return None;
      }
      builder.CheckForImports();
      ok := builder.ConvertTokens(files, fuel);
      if !ok {
        return None;
      }
      var written := builder.CreateCFile();
      return Some(written);
    }
  }

  /** Headers followed by the converted entries are the lines of the C file. */
  lemma CFileLinesOf(imports: seq<string>, converted: seq<string>, headers: seq<string>)
    requires |headers| == |imports|
    requires forall k :: 0 <= k < |imports| ==> headers[k] == "#include " + imports[k] + "\n"
    ensures headers + converted == CFileLines(imports, converted)
  {
    var r := CFileLines(imports, converted);
    assert r[..|imports|] == headers;
    assert r == r[..|imports|] + r[|imports|..];
  }
}
