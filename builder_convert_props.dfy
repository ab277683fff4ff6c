/** What `ConvertTokens` guarantees, stated over the functions of `BuilderConvert`. */
module BuilderConvertProperties {
  import opened Base
  import opened BuilderLexer
  import opened BuilderScan
  import opened BuilderConvert

  // ---------------------------------------------------------------------------------------
  // Small facts about strings and sequences
  // ---------------------------------------------------------------------------------------

  lemma EndsWithAppend(a: string, b: string)
    ensures EndsWith(a + b, b) && StartsWith(a + b, a)
  {
    assert (a + b)[|a + b| - |b|..] == b;
    assert (a + b)[..|a|] == a;
  }

  lemma RemoveFirstKeepsAtoms(t: seq<string>, v: string)
    requires AllAtoms(t)
    ensures AllAtoms(RemoveFirst(t, v))
  {
    var r := RemoveFirst(t, v);
    forall k | 0 <= k < |r|
      ensures IsAtom(r[k])
    {
      assert r[k] in r;
      var m :| 0 <= m < |t| && t[m] == r[k];
    }
  }

  // ---------------------------------------------------------------------------------------
  // Only growth: entries and names are never changed or removed
  // ---------------------------------------------------------------------------------------

  /** The variable, import and name lists of `q` extend those of `p`. */
  predicate ListsGrow(p: Pipeline, q: Pipeline)
  {
    p.intVars <= q.intVars && p.stringVars <= q.stringVars && p.boolVars <= q.boolVars
    && p.imports <= q.imports && p.functionNames <= q.functionNames && p.intListNames <= q.intListNames
  }

  /** `c'` keeps every entry of `c` but the last, which it only extends. */
  predicate LastExtended(c: seq<string>, c': seq<string>)
  {
    && |c| > 0 && |c| <= |c'|
    && (forall k :: 0 <= k < |c| - 1 ==> c'[k] == c[k])
    && StartsWith(c'[|c| - 1], c[|c| - 1])
  }

  lemma StartsWithTrans(a: string, b: string, c: string)
    requires StartsWith(b, a) && StartsWith(c, b)
    ensures StartsWith(c, a)
  {
    assert c[..|a|] == c[..|b|][..|a|];
  }

  lemma LastExtendedTrans(a: seq<string>, b: seq<string>, c: seq<string>)
    requires LastExtended(a, b) && LastExtended(b, c)
    ensures LastExtended(a, c)
  {
    var n := |a|;
    if n == |b| {
      StartsWithTrans(a[n - 1], b[n - 1], c[n - 1]);
    } else {
      assert c[n - 1] == b[n - 1];
    }
  }

  lemma LastExtendedByEmit(c: seq<string>, x: string)
    requires |c| > 0
    ensures LastExtended(c, c + [x])
  {
    var last := c[|c| - 1];
    assert (c + [x])[|c| - 1] == last;
    assert last[..|last|] == last;
  }

  /** Keeping a longer sequence's entries but its last keeps every shorter prefix. */
  lemma LastExtendedKeepsPrefix(c: seq<string>, x: string, c': seq<string>)
    requires LastExtended(c + [x], c')
    ensures c <= c'
  {
    forall k | 0 <= k < |c|
      ensures c'[k] == c[k]
    {
      assert (c + [x])[k] == c[k];
    }
  }

  /** The parameter loop changes only Tokens, ConvertedTokens, IntVars and StringVars. */
  predicate ParamFrame(p: Pipeline, q: Pipeline)
  {
    q == p.(tokens := q.tokens, converted := q.converted, intVars := q.intVars, stringVars := q.stringVars)
  }

  lemma ParamIterationGrows(p: Pipeline, j: nat)
    requires j < |p.tokens|
    ensures ParamIteration(p, j).Some? ==>
              var q := ParamIteration(p, j).value.0;
              p.converted <= q.converted && ListsGrow(p, q) && ParamFrame(p, q)
  {
  }

  lemma {:induction false} ParamLoopGrows(p: Pipeline, j: nat)
    ensures ParamLoop(p, j).Some? ==>
              var q := ParamLoop(p, j).value;
              p.converted < q.converted && ListsGrow(p, q) && ParamFrame(p, q)
    decreases |p.tokens| - j
  {
    if j < |p.tokens| {
      ParamIterationGrows(p, j);
      var r := ParamIteration(p, j);
      if r.Some? && !r.value.1 {
        ParamLoopGrows(r.value.0, j + 1);
      }
    }
  }

  lemma CallIterationShape(p: Pipeline, j: nat)
    requires j < |p.tokens| && |p.converted| > 0 && CallIteration(p, j).Some?
    ensures var (q, stop) := CallIteration(p, j).value;
      && q == p.(tokens := q.tokens, converted := q.converted)
      && (stop ==> q == p)
      && (q.converted == p.converted || q.converted == p.converted + [q.converted[|p.converted|]])
      && |p.tokens| - |q.tokens| == |q.converted| - |p.converted|
  {
  }

  lemma AppendShape(p: Pipeline, s: string)
    requires |p.converted| > 0
    ensures var q := Append(p, s);
      LastExtended(p.converted, q.converted) && EndsWith(q.converted[|q.converted| - 1], s)
      && |q.converted| == |p.converted| && q == p.(converted := q.converted)
  {
    EndsWithAppend(p.converted[|p.converted| - 1], s);
  }

  /** The last entry ends in `);`. */
  predicate Closed(c: seq<string>)
  {
    |c| > 0 && EndsWith(c[|c| - 1], ");")
  }

  lemma AppendCloses(p: Pipeline)
    requires |p.converted| > 0
    ensures Closed(Append(p, ");").converted)
  {
    EndsWithAppend(p.converted[|p.converted| - 1], ");");
  }

  /** The call loop from `j` on, unfolded once. */
  lemma CallLoopStep(p: Pipeline, j: nat)
    requires |p.converted| > 0 && j < |p.tokens| && CallIteration(p, j).Some?
    ensures var (q, stop) := CallIteration(p, j).value;
      CallLoop(p, j) == if stop then Some(Append(q, ");")) else CallLoop(q, j + 1)
  {
  }

  /** The call loop changes only Tokens and ConvertedTokens (Builder.cs:271-294). */
  lemma {:induction false} CallLoopFrame(p: Pipeline, j: nat)
    requires |p.converted| > 0 && CallLoop(p, j).Some?
    ensures CallLoop(p, j).value == p.(tokens := CallLoop(p, j).value.tokens, converted := CallLoop(p, j).value.converted)
    decreases |p.tokens| - j
  {
    if j >= |p.tokens| {
      assert CallLoop(p, j) == Some(Append(p, ");"));
    } else {
      CallIterationShape(p, j);
      var (q, stop) := CallIteration(p, j).value;
      if stop {
        assert CallLoop(p, j) == Some(Append(q, ");"));
      } else {
        assert CallLoop(p, j) == CallLoop(q, j + 1);
        CallLoopFrame(q, j + 1);
      }
    }
  }

  /** The last entry of a call always ends in `);` (Builder.cs:294). */
  lemma {:induction false} CallLoopCloses(p: Pipeline, j: nat)
    requires |p.converted| > 0 && CallLoop(p, j).Some?
    ensures Closed(CallLoop(p, j).value.converted)
    decreases |p.tokens| - j
  {
    if j >= |p.tokens| {
      assert CallLoop(p, j) == Some(Append(p, ");"));
      AppendCloses(p);
    } else {
      CallIterationShape(p, j);
      CallLoopStep(p, j);
      var (q, stop) := CallIteration(p, j).value;
      if stop {
        assert CallLoop(p, j) == Some(Append(q, ");"));
        AppendCloses(q);
      } else {
        assert CallLoop(p, j) == CallLoop(q, j + 1);
        CallLoopCloses(q, j + 1);
      }
    }
  }

  /** `q` has one more entry than `p` for every token it has fewer. */
  predicate Balanced(p: Pipeline, q: Pipeline)
  {
    |p.tokens| - |q.tokens| == |q.converted| - |p.converted|
  }

  lemma AppendBalanced(p: Pipeline, s: string)
    requires |p.converted| > 0
    ensures Balanced(p, Append(p, s))
  {
  }

  /** The call loop removes exactly one token per argument entry it adds (Builder.cs:276-291). */
  lemma {:induction false} CallLoopCounts(p: Pipeline, j: nat)
    requires |p.converted| > 0 && CallLoop(p, j).Some?
    ensures Balanced(p, CallLoop(p, j).value)
    decreases |p.tokens| - j
  {
    if j >= |p.tokens| {
      assert CallLoop(p, j) == Some(Append(p, ");"));
      AppendBalanced(p, ");");
    } else {
      CallIterationShape(p, j);
      CallLoopStep(p, j);
      var (q, stop) := CallIteration(p, j).value;
      if stop {
        assert CallLoop(p, j) == Some(Append(q, ");"));
        AppendBalanced(q, ");");
      } else {
        assert CallLoop(p, j) == CallLoop(q, j + 1);
        CallLoopCounts(q, j + 1);
      }
    }
  }

  /** The call loop keeps every entry it finds and may only extend the last one. */
  lemma {:induction false} CallLoopKeepsEntries(p: Pipeline, j: nat)
    requires |p.converted| > 0 && CallLoop(p, j).Some?
    ensures LastExtended(p.converted, CallLoop(p, j).value.converted)
    decreases |p.tokens| - j
  {
    if j >= |p.tokens| {
      AppendShape(p, ");");
    } else {
      CallIterationShape(p, j);
      var r := CallIteration(p, j);
      var q := r.value.0;
      if r.value.1 {
        assert CallLoop(p, j) == Some(Append(q, ");"));
        AppendShape(q, ");");
      } else {
        assert CallLoop(p, j) == CallLoop(q, j + 1);
        CallLoopKeepsEntries(q, j + 1);
        if q.converted != p.converted {
          LastExtendedByEmit(p.converted, q.converted[|p.converted|]);
          LastExtendedTrans(p.converted, q.converted, CallLoop(q, j + 1).value.converted);
        }
      }
    }
  }

  lemma {:induction false} ListLoopShape(p: Pipeline, z: nat)
    requires |p.converted| > 0
    ensures var q := ListLoop(p, z);
      q == p.(converted := q.converted) && LastExtended(p.converted, q.converted)
    decreases |p.tokens| - z
  {
    var c := p.converted;
    var n := |c|;
    assert c[n - 1][..|c[n - 1]|] == c[n - 1];
    if z < |p.tokens| {
      var s := if p.tokens[z] != "]" then p.tokens[z] else "};";
      var p' := Append(p, s);
      EndsWithAppend(c[n - 1], s);
      if p.tokens[z] != "]" {
        ListLoopShape(p', z + 1);
        var f := ListLoop(p', z + 1).converted;
        assert StartsWith(f[n - 1], c[n - 1] + s);
        assert f[n - 1][..|c[n - 1]|] == (c[n - 1] + s)[..|c[n - 1]|];
      }
    }
  }

  lemma ReassignGrows(p: Pipeline, i: nat, declarer: string, vars: seq<string>)
    requires i < |p.tokens|
    ensures var r := Reassign(p, i, declarer, vars);
      r.Some? ==> p.converted <= r.value.converted && r.value == p.(converted := r.value.converted)
  {
  }

  lemma DefaultGrows(p: Pipeline, i: nat)
    requires i < |p.tokens|
    ensures Default(p, i).Some? ==> p.converted <= Default(p, i).value.converted
    ensures Default(p, i).Some? ==> Default(p, i).value == p.(tokens := Default(p, i).value.tokens,
                                                              converted := Default(p, i).value.converted)
  {
    var r := Default(p, i);
    if r.Some? {
      ReassignGrows(p, i, "int", p.intVars);
      var p1 := Reassign(p, i, "int", p.intVars).value;
      ReassignGrows(p1, i, "bool", p1.boolVars);
      var p2 := Reassign(p1, i, "bool", p1.boolVars).value;
      var t := p2.tokens;
      if t[i] in p2.functionNames && i != 0 && t[i - 1] != "function" {
        var e := Emit(p2, t[i] + "(");
        assert r == CallLoop(e, i);
        CallLoopFrame(e, i);
        CallLoopKeepsEntries(e, i);
        LastExtendedKeepsPrefix(p2.converted, t[i] + "(", r.value.converted);
      } else {
        assert r == Some(p2);
      }
    }
  }

  lemma ConvertKeywordGrows(p: Pipeline, i: nat)
    requires i < |p.tokens| && CaseOf(p.tokens[i]) != IncludeFile
    ensures ConvertKeyword(p, i).Some? ==>
              p.converted <= ConvertKeyword(p, i).value.converted && ListsGrow(p, ConvertKeyword(p, i).value)
  {
    var t := p.tokens;
    var k := CaseOf(t[i]);
    if k == FunctionDecl && i + 1 < |t| && t[i + 1] != "main" {
      ParamLoopGrows(Emit(p, "void " + t[i + 1] + "("), i);
    } else if k == ListDecl && i + 1 < |t| {
      var e := Emit(p, "int " + t[i + 1] + "[] = {").(intListNames := p.intListNames + [t[i + 1]]);
      ListLoopShape(e, i + 5);
    } else if k == Other {
      DefaultGrows(p, i);
    }
  }

  lemma IncludeGrows(p: Pipeline, i: nat, files: Files, fuel: nat)
    requires i < |p.tokens|
    ensures Include(p, i, files, fuel).Some? ==>
              var q := Include(p, i, files, fuel).value.0;
              q.converted == p.converted && ListsGrow(p, q)
  {
    if Include(p, i, files, fuel).Some? {
      var p1 := ReadInto(p, files[p.tokens[i + 1]]).value;
      var p2 := SearchIn(p1).value;
      CheckImportsSpec(p2.tokens, p2.imports);
    }
  }

  /** `ConvertTokens` only appends entries to ConvertedTokens and only appends to IntVars,
      StringVars, BoolVars, IntListNames, FunctionNames and RequiredImports: earlier entries are
      never modified (Builder.cs:164-298). */
  lemma {:induction false} ConvertFromGrows(p: Pipeline, i: nat, files: Files, fuel: nat)
    ensures ConvertFrom(p, i, files, fuel).Some? ==>
              p.converted <= ConvertFrom(p, i, files, fuel).value.converted
              && ListsGrow(p, ConvertFrom(p, i, files, fuel).value)
    decreases fuel, |p.tokens| - i
  {
    if i < |p.tokens| {
      var r := ConvertAt(p, i, files, fuel);
      if r.Some? {
        if CaseOf(p.tokens[i]) == IncludeFile {
          IncludeGrows(p, i, files, fuel);
        } else {
          ConvertKeywordGrows(p, i);
        }
        assert ConvertFrom(p, i, files, fuel) == ConvertFrom(r.value.0, i + 1, files, r.value.1);
        ConvertFromGrows(r.value.0, i + 1, files, r.value.1);
      }
    }
  }

  // ---------------------------------------------------------------------------------------
  // Tokens stay lexer-shaped, so `{` is never a token
  // ---------------------------------------------------------------------------------------

  lemma ParamKeepsAtoms(p: Pipeline, j: nat, isInt: bool)
    requires j < |p.tokens| && AllAtoms(p.tokens) && Param(p, j, isInt).Some?
    ensures AllAtoms(Param(p, j, isInt).value.tokens)
  {
    var t := p.tokens;
    RemoveFirstKeepsAtoms(t, t[j]);
    RemoveFirstKeepsAtoms(RemoveFirst(t, t[j]), RemoveFirst(t, t[j])[j + 1]);
  }

  lemma ParamIterationKeepsAtoms(p: Pipeline, j: nat)
    requires j < |p.tokens| && AllAtoms(p.tokens)
    ensures ParamIteration(p, j).Some? ==> AllAtoms(ParamIteration(p, j).value.0.tokens)
  {
    var t := p.tokens;
    var afterInt := if t[j] == "int" then Param(p, j, true) else Some(p);
    if afterInt.Some? {
      if t[j] == "int" {
        ParamKeepsAtoms(p, j, true);
      }
      var q := afterInt.value;
      if q.tokens[j] == "string" && Param(q, j, false).Some? {
        ParamKeepsAtoms(q, j, false);
      }
    }
  }

  lemma {:induction false} ParamLoopKeepsAtoms(p: Pipeline, j: nat)
    requires AllAtoms(p.tokens)
    ensures ParamLoop(p, j).Some? ==> AllAtoms(ParamLoop(p, j).value.tokens)
    decreases |p.tokens| - j
  {
    if j < |p.tokens| {
      ParamIterationKeepsAtoms(p, j);
      var r := ParamIteration(p, j);
      if r.Some? && !r.value.1 {
        ParamLoopKeepsAtoms(r.value.0, j + 1);
      }
    }
  }

  lemma CallIterationKeepsAtoms(p: Pipeline, j: nat)
    requires j < |p.tokens| && AllAtoms(p.tokens)
    ensures CallIteration(p, j).Some? ==> AllAtoms(CallIteration(p, j).value.0.tokens)
  {
    if j + 1 < |p.tokens| {
      RemoveFirstKeepsAtoms(p.tokens, p.tokens[j + 1]);
    }
  }

  lemma {:induction false} CallLoopKeepsAtoms(p: Pipeline, j: nat)
    requires |p.converted| > 0 && AllAtoms(p.tokens)
    ensures CallLoop(p, j).Some? ==> AllAtoms(CallLoop(p, j).value.tokens)
    decreases |p.tokens| - j
  {
    if j < |p.tokens| {
      CallIterationKeepsAtoms(p, j);
      var r := CallIteration(p, j);
      if r.Some? {
        var (q, stop) := r.value;
        if stop {
          assert CallLoop(p, j) == Some(Append(q, ");"));
        } else {
          assert CallLoop(p, j) == CallLoop(q, j + 1);
          CallLoopKeepsAtoms(q, j + 1);
        }
      } else {
        assert CallLoop(p, j).None?;
      }
    }
  }

  lemma DefaultKeepsAtoms(p: Pipeline, i: nat)
    requires i < |p.tokens| && AllAtoms(p.tokens)
    ensures Default(p, i).Some? ==> AllAtoms(Default(p, i).value.tokens)
  {
    var r := Default(p, i);
    if r.Some? {
      ReassignGrows(p, i, "int", p.intVars);
      var p1 := Reassign(p, i, "int", p.intVars).value;
      ReassignGrows(p1, i, "bool", p1.boolVars);
      var p2 := Reassign(p1, i, "bool", p1.boolVars).value;
      var t := p2.tokens;
      if t[i] in p2.functionNames && i != 0 && t[i - 1] != "function" {
        var e := Emit(p2, t[i] + "(");
        assert r == CallLoop(e, i);
        CallLoopKeepsAtoms(e, i);
      } else {
        assert r == Some(p2);
      }
    }
  }

  lemma ConvertKeywordKeepsAtoms(p: Pipeline, i: nat)
    requires i < |p.tokens| && CaseOf(p.tokens[i]) != IncludeFile && AllAtoms(p.tokens)
    ensures ConvertKeyword(p, i).Some? ==> AllAtoms(ConvertKeyword(p, i).value.tokens)
  {
    var t := p.tokens;
    match CaseOf(t[i])
    case FunctionDecl =>
      if i + 1 < |t| && t[i + 1] != "main" {
        ParamLoopKeepsAtoms(Emit(p, "void " + t[i + 1] + "("), i);
      }
    case Other =>
      DefaultKeepsAtoms(p, i);
    case _ =>
  }

  lemma IncludeKeepsAtoms(p: Pipeline, i: nat, files: Files, fuel: nat)
    requires i < |p.tokens| && AllAtoms(p.tokens)
    ensures Include(p, i, files, fuel).Some? ==> AllAtoms(Include(p, i, files, fuel).value.0.tokens)
  {
    var t := p.tokens;
    if i + 1 < |t| && t[i + 1] in files {
      ReadLinesGivesAtoms(files[t[i + 1]], t);
    }
  }

  lemma ConvertAtKeepsAtoms(p: Pipeline, i: nat, files: Files, fuel: nat)
    requires i < |p.tokens| && AllAtoms(p.tokens)
    ensures ConvertAt(p, i, files, fuel).Some? ==> AllAtoms(ConvertAt(p, i, files, fuel).value.0.tokens)
  {
    if CaseOf(p.tokens[i]) == IncludeFile {
      IncludeKeepsAtoms(p, i, files, fuel);
    } else {
      ConvertKeywordKeepsAtoms(p, i);
    }
  }

  /** Removing tokens and appending included files keep every token in the shape the lexer
      produces, so the `!= "{"` tests of Builder.cs:207 and 216 see no `{` during the whole
      conversion. */
  lemma {:induction false} ConvertFromKeepsAtoms(p: Pipeline, i: nat, files: Files, fuel: nat)
    requires AllAtoms(p.tokens)
    ensures ConvertFrom(p, i, files, fuel).Some? ==> AllAtoms(ConvertFrom(p, i, files, fuel).value.tokens)
    decreases fuel, |p.tokens| - i
  {
    if i < |p.tokens| {
      var r := ConvertAt(p, i, files, fuel);
      if r.Some? {
        ConvertAtKeepsAtoms(p, i, files, fuel);
        assert ConvertFrom(p, i, files, fuel) == ConvertFrom(r.value.0, i + 1, files, r.value.1);
        ConvertFromKeepsAtoms(r.value.0, i + 1, files, r.value.1);
      }
    }
  }

  // ---------------------------------------------------------------------------------------
  // Function headers: every parameter gets a trailing comma
  // ---------------------------------------------------------------------------------------

  /** Entries a parameter step adds, all ending in `,`. */
  predicate CommaEntries(c: seq<string>, c': seq<string>)
  {
    |c| <= |c'| && (forall k :: 0 <= k < |c| ==> c'[k] == c[k])
    && (forall k :: |c| <= k < |c'| ==> EndsWith(c'[k], ","))
  }

  /** Two fewer tokens and one more variable for every entry added. */
  predicate ParamCounts(p: Pipeline, q: Pipeline)
  {
    && |p.tokens| - |q.tokens| == 2 * (|q.converted| - |p.converted|)
    && |q.intVars| + |q.stringVars| - |p.intVars| - |p.stringVars| == |q.converted| - |p.converted|
  }

  lemma CommaEntriesTrans(a: seq<string>, b: seq<string>, c: seq<string>)
    requires CommaEntries(a, b) && CommaEntries(b, c)
    ensures CommaEntries(a, c)
  {
  }

  lemma ParamShape(p: Pipeline, j: nat, isInt: bool)
    requires j < |p.tokens| && "{" !in p.tokens && Param(p, j, isInt).Some?
    ensures var q := Param(p, j, isInt).value;
      CommaEntries(p.converted, q.converted) && "{" !in q.tokens && ParamCounts(p, q)
  {
    var t := p.tokens;
    var name := t[j + 1];
    assert t[j + 3] in t;
    var entry := if isInt then "int " + name else "char " + name + "[]";
    EndsWithAppend(entry, ",");
    assert Param(p, j, isInt).value.converted == p.converted + [entry + ","];
  }

  /** One pass of the parameter loop adds parameter entries ending in `,` and removes two
      tokens per entry. */
  lemma ParamIterationShape(p: Pipeline, j: nat)
    requires j < |p.tokens| && "{" !in p.tokens && ParamIteration(p, j).Some?
    ensures var q := ParamIteration(p, j).value.0;
      CommaEntries(p.converted, q.converted) && "{" !in q.tokens && ParamCounts(p, q)
  {
    var t := p.tokens;
    var q := if t[j] == "int" then Param(p, j, true).value else p;
    if t[j] == "int" {
      ParamShape(p, j, true);
    }
    if q.tokens[j] == "string" {
      var r := Param(q, j, false).value;
      assert ParamIteration(p, j) == Some((r, false));
      ParamShape(q, j, false);
      CommaEntriesTrans(p.converted, q.converted, r.converted);
    } else {
      assert ParamIteration(p, j) == Some((q, q.tokens[j] == "}"));
    }
  }

  /** `c'` keeps `c`, then has parameter entries ending in `,`, then the closing `){`. */
  predicate HeaderEntries(c: seq<string>, c': seq<string>)
  {
    && |c| < |c'|
    && (forall k :: 0 <= k < |c| ==> c'[k] == c[k])
    && (forall k :: |c| <= k < |c'| - 1 ==> EndsWith(c'[k], ","))
    && c'[|c'| - 1] == "){"
  }

  lemma CommaEntriesThenHeader(a: seq<string>, b: seq<string>, c: seq<string>)
    requires CommaEntries(a, b) && HeaderEntries(b, c)
    ensures HeaderEntries(a, c)
  {
  }

  /** With no `{` among the tokens, the parameter loop adds one entry per parameter, each ending
      in `,`, then the closing `){` (Builder.cs:202-224). */
  lemma {:induction false} ParamLoopEntries(p: Pipeline, j: nat)
    requires "{" !in p.tokens && ParamLoop(p, j).Some?
    ensures HeaderEntries(p.converted, ParamLoop(p, j).value.converted)
    decreases |p.tokens| - j
  {
    if j < |p.tokens| {
      ParamIterationShape(p, j);
      var r := ParamIteration(p, j);
      var q := r.value.0;
      if !r.value.1 {
        assert ParamLoop(p, j) == ParamLoop(q, j + 1);
        ParamLoopEntries(q, j + 1);
        CommaEntriesThenHeader(p.converted, q.converted, ParamLoop(q, j + 1).value.converted);
      } else {
        assert ParamLoop(p, j) == Some(Emit(q, "){"));
        CommaEntriesThenHeader(p.converted, q.converted, q.converted + ["){"]);
      }
    }
  }

  /** Every parameter entry removes two tokens and records one variable (Builder.cs:205-220). */
  lemma {:induction false} ParamLoopCounts(p: Pipeline, j: nat)
    requires "{" !in p.tokens && ParamLoop(p, j).Some?
    ensures var q := ParamLoop(p, j).value;
      && |p.tokens| - |q.tokens| == 2 * (|q.converted| - |p.converted| - 1)
      && |q.intVars| + |q.stringVars| - |p.intVars| - |p.stringVars| == |q.converted| - |p.converted| - 1
    decreases |p.tokens| - j
  {
    if j < |p.tokens| {
      ParamIterationShape(p, j);
      var r := ParamIteration(p, j);
      var q := r.value.0;
      if !r.value.1 {
        assert ParamLoop(p, j) == ParamLoop(q, j + 1);
        ParamLoopCounts(q, j + 1);
      } else {
        assert ParamLoop(p, j) == Some(Emit(q, "){"));
      }
    }
  }

  /** A function header on lexer-shaped tokens: `void NAME(`, one entry per parameter, each with
      a trailing comma, then `){` (Builder.cs:198-225). */
  lemma FunctionHeader(p: Pipeline, i: nat, files: Files, fuel: nat)
    requires i + 1 < |p.tokens| && p.tokens[i] == "function" && p.tokens[i + 1] != "main"
    requires AllAtoms(p.tokens)
    ensures var r := ConvertAt(p, i, files, fuel);
      r.Some? ==>
        && r.value.1 == fuel
        && HeaderEntries(p.converted + ["void " + p.tokens[i + 1] + "("], r.value.0.converted)
  {
    AtomsExcludeSeparators(p.tokens);
    var e := Emit(p, "void " + p.tokens[i + 1] + "(");
    if ParamLoop(e, i).Some? {
      assert ConvertAt(p, i, files, fuel) == Some((ParamLoop(e, i).value, fuel));
      ParamLoopEntries(e, i);
    }
  }

  // ---------------------------------------------------------------------------------------
  // Fixed templates (Builder.cs:168-197, 226-238, 256-259)
  // ---------------------------------------------------------------------------------------

  /** The cases whose output is one entry built from fixed offsets ... */
  predicate IsFixedTemplate(k: string)
  {
    CaseOf(k) in {Print, PrintStr, IntDecl, BoolDecl, StringDecl, PrintInt, For, If, Else, CloseBrace}
  }

  /** ... and the last offset each one reads. */
  function Arity(k: string): nat
  {
    var c := CaseOf(k);
    if c in {IntDecl, BoolDecl, StringDecl, If} then 3
    else if c == For then 5
    else if c == CloseBrace then 0
    else 1
  }

  /** A fixed-template case throws exactly when its last offset is past the end; otherwise it
      appends exactly one entry, leaves Tokens alone and registers the declared variable of
      `int`, `bool` and `string` and nothing else. */
  lemma FixedTemplateAppendsOneEntry(p: Pipeline, i: nat, files: Files, fuel: nat)
    requires i < |p.tokens| && IsFixedTemplate(p.tokens[i])
    ensures ConvertAt(p, i, files, fuel).None? <==> i + Arity(p.tokens[i]) >= |p.tokens|
    ensures var r := ConvertAt(p, i, files, fuel);
      r.Some? ==>
        var q := r.value.0;
        var k := p.tokens[i];
        && r.value.1 == fuel
        && |q.converted| == |p.converted| + 1 && q.converted[..|p.converted|] == p.converted
        && q == p.(converted := q.converted, intVars := q.intVars, boolVars := q.boolVars,
                   stringVars := q.stringVars)
        && q.intVars == p.intVars + (if k == "int" then [p.tokens[i + 1]] else [])
        && q.boolVars == p.boolVars + (if k == "bool" then [p.tokens[i + 1]] else [])
        && q.stringVars == p.stringVars + (if k == "string" then [p.tokens[i + 1]] else [])
  {
  }

  /** `int NAME = V` becomes `int NAME=V;`; `for` always counts `i` up to an inclusive bound;
      `then` closes a loop only when followed by `end` (Builder.cs:174-177, 188-194). */
  lemma DeclarationAndLoopTemplates(p: Pipeline, i: nat, files: Files, fuel: nat)
    requires i < |p.tokens|
    ensures p.tokens[i] == "int" && i + 3 < |p.tokens| ==>
              ConvertAt(p, i, files, fuel).value.0.converted
                == p.converted + ["int " + p.tokens[i + 1] + p.tokens[i + 2] + p.tokens[i + 3] + ";"]
    ensures p.tokens[i] == "for" && i + 5 < |p.tokens| ==>
              ConvertAt(p, i, files, fuel).value.0.converted
                == p.converted + ["for(int i = " + p.tokens[i + 3] + "; i <= " + p.tokens[i + 5] + "; i++){"]
    ensures p.tokens[i] == "then" && i + 1 < |p.tokens| ==>
              ConvertAt(p, i, files, fuel) ==
                Some((if p.tokens[i + 1] == "end" then Emit(p, "};") else p, fuel))
  {
  }

  /** The print cases: `print` wraps its argument in `printf(...)`, and `print_str` and
      `print_int` prefix the `%s` and `%d` formats (Builder.cs:168-173, 186-188). */
  lemma PrintTemplates(p: Pipeline, i: nat, files: Files, fuel: nat)
    requires i + 1 < |p.tokens|
    ensures var t := p.tokens;
      t[i] == "print" ==> ConvertAt(p, i, files, fuel) == Some((Emit(p, "printf(" + t[i + 1] + ");"), fuel))
    ensures var t := p.tokens;
      t[i] == "print_str" ==>
        ConvertAt(p, i, files, fuel) == Some((Emit(p, "printf(\"%s\\n\"," + t[i + 1] + ");"), fuel))
    ensures var t := p.tokens;
      t[i] == "print_int" ==>
        ConvertAt(p, i, files, fuel) == Some((Emit(p, "printf(\"%d\\n\"," + t[i + 1] + ");"), fuel))
  {
  }

  /** `print_list_element NAME ( IDX )` of a known list prints the element at offset 4; an
      unknown list writes nothing (Builder.cs:256-259). */
  lemma ListElementTemplate(p: Pipeline, i: nat, files: Files, fuel: nat)
    requires i + 1 < |p.tokens| && p.tokens[i] == "print_list_element"
    ensures var t := p.tokens;
      ConvertAt(p, i, files, fuel) ==
        if t[i + 1] !in p.intListNames then Some((p, fuel))
        else if i + 4 >= |t| then None
        else Some((Emit(p, "printf(\"%d\\n\", " + t[i + 1] + "[" + t[i + 4] + "]);"), fuel))
  {
  }

  /** `bool NAME = V` becomes `bool NAME = V;` and registers NAME; `string NAME = V` becomes
      `char NAME[]=V;` and registers NAME (Builder.cs:178-185). */
  lemma DeclarationTemplates(p: Pipeline, i: nat, files: Files, fuel: nat)
    requires i + 3 < |p.tokens|
    ensures var t := p.tokens;
      t[i] == "bool" ==>
        ConvertAt(p, i, files, fuel) ==
          Some((Emit(p, "bool " + t[i + 1] + " = " + t[i + 3] + ";").(boolVars := p.boolVars + [t[i + 1]]), fuel))
    ensures var t := p.tokens;
      t[i] == "string" ==>
        ConvertAt(p, i, files, fuel) ==
          Some((Emit(p, "char " + t[i + 1] + "[]" + t[i + 2] + t[i + 3] + ";").(stringVars := p.stringVars + [t[i + 1]]), fuel))
  {
  }

  /** `if A op B` becomes `if(AopB){`; `else` becomes `else{`, or a bare `else` before `if`;
      `}` stays `}` (Builder.cs:228-238). */
  lemma BranchTemplates(p: Pipeline, i: nat, files: Files, fuel: nat)
    requires i + 1 < |p.tokens|
    ensures var t := p.tokens;
      t[i] == "if" && i + 3 < |t| ==>
        ConvertAt(p, i, files, fuel) == Some((Emit(p, "if(" + t[i + 1] + t[i + 2] + t[i + 3] + "){"), fuel))
    ensures var t := p.tokens;
      t[i] == "else" ==>
        ConvertAt(p, i, files, fuel) == Some((Emit(p, if t[i + 1] == "if" then "else" else "else{"), fuel))
    ensures var t := p.tokens;
      t[i] == "}" ==> ConvertAt(p, i, files, fuel) == Some((Emit(p, "}"), fuel))
  {
    var t := p.tokens;
    if t[i] == "else" {
      assert "else" + "" == "else" && "else" + "{" == "else{";
    }
  }

  // ---------------------------------------------------------------------------------------
  // Lists (Builder.cs:244-259)
  // ---------------------------------------------------------------------------------------

  /** The first `]` at or after `z`, or the end. */
  function ListEnd(t: seq<string>, z: nat): (m: nat)
    requires z <= |t|
    ensures z <= m <= |t| && (m < |t| ==> t[m] == "]")
    ensures forall k :: z <= k < m ==> t[k] != "]"
    decreases |t| - z
  {
    if z == |t| || t[z] == "]" then z else ListEnd(t, z + 1)
  }

  lemma AppendNothing(p: Pipeline)
    requires |p.converted| > 0
    ensures Append(p, "") == p
  {
    var c := p.converted;
    assert c[|c| - 1] + "" == c[|c| - 1];
    assert c[..|c| - 1] + [c[|c| - 1]] == c;
  }

  lemma {:induction false} ListLoopContent(p: Pipeline, z: nat)
    requires |p.converted| > 0 && z <= |p.tokens|
    ensures var m := ListEnd(p.tokens, z);
      ListLoop(p, z) == Append(p, Concat(p.tokens[z..m]) + (if m < |p.tokens| then "};" else ""))
    decreases |p.tokens| - z
  {
    var t := p.tokens;
    var m := ListEnd(t, z);
    var c := p.converted;
    var n := |c|;
    if z == |t| {
      assert t[z..m] == [];
      assert Concat(t[z..m]) + "" == "";
      AppendNothing(p);
    } else if t[z] == "]" {
      assert t[z..m] == [];
      assert Concat([]) + "};" == "};";
    } else {
      var p' := Append(p, t[z]);
      ListLoopContent(p', z + 1);
      assert ListEnd(t, z + 1) == m;
      var rest := Concat(t[z + 1..m]) + (if m < |t| then "};" else "");
      assert ListLoop(p, z) == Append(p', rest);
      AppendTwice(p, t[z], rest);
      ConcatFrom(t, z, m);
      var tail := if m < |t| then "};" else "";
      assert t[z] + rest == (t[z] + Concat(t[z + 1..m])) + tail;
    }
  }

  lemma AppendTwice(p: Pipeline, a: string, b: string)
    requires |p.converted| > 0
    ensures Append(Append(p, a), b) == Append(p, a + b)
  {
    var c := p.converted;
    var n := |c|;
    assert Append(p, a).converted[..n - 1] == c[..n - 1];
    assert (c[n - 1] + a) + b == c[n - 1] + (a + b);
  }

  lemma ConcatFrom(t: seq<string>, z: nat, m: nat)
    requires z < m <= |t|
    ensures Concat(t[z..m]) == t[z] + Concat(t[z + 1..m])
  {
    assert t[z..m][0] == t[z] && t[z..m][1..] == t[z + 1..m];
  }

  /** `List<int> NAME = [ a , b ]` registers NAME and becomes one entry `int NAME[] = {` followed
      by the tokens from offset 5 up to the first `]`, closed by `};` when that `]` exists. */
  lemma ListDeclaration(p: Pipeline, i: nat, files: Files, fuel: nat)
    requires i + 5 <= |p.tokens| && p.tokens[i] == "List<int>"
    ensures var t := p.tokens;
      var m := ListEnd(t, i + 5);
      ConvertAt(p, i, files, fuel) ==
        Some((p.(converted := p.converted + ["int " + t[i + 1] + "[] = {" + Concat(t[i + 5..m])
                                             + (if m < |t| then "};" else "")],
                 intListNames := p.intListNames + [t[i + 1]]), fuel))
  {
    var t := p.tokens;
    var head := "int " + t[i + 1] + "[] = {";
    var e := Emit(p, head).(intListNames := p.intListNames + [t[i + 1]]);
    var m := ListEnd(t, i + 5);
    var rest := Concat(t[i + 5..m]) + (if m < |t| then "};" else "");
    ListLoopContent(e, i + 5);
    assert e.converted[..|e.converted| - 1] == p.converted;
    assert head + rest == "int " + t[i + 1] + "[] = {" + Concat(t[i + 5..m]) + (if m < |t| then "};" else "");
    assert ConvertKeyword(p, i) == Some(ListLoop(e, i + 5));
  }

  // ---------------------------------------------------------------------------------------
  // Reassignments and calls (Builder.cs:260-296)
  // ---------------------------------------------------------------------------------------

  /** A token that is none of the switch's cases. */
  predicate IsPlainToken(k: string)
  {
    CaseOf(k) == Other
  }

  /** A known int variable, not just declared, followed by `=` becomes `NAME = V;`. */
  lemma IntReassignment(p: Pipeline, i: nat, files: Files, fuel: nat)
    requires 0 < i && i + 2 < |p.tokens| && IsPlainToken(p.tokens[i])
    requires p.tokens[i] in p.intVars && p.tokens[i - 1] != "int" && p.tokens[i + 1] == "="
    requires p.tokens[i] !in p.boolVars && p.tokens[i] !in p.functionNames
    ensures ConvertAt(p, i, files, fuel) == Some((Emit(p, p.tokens[i] + " = " + p.tokens[i + 2] + ";"), fuel))
  {
    var t := p.tokens;
    assert t[i] + " " + t[i + 1] + " " + t[i + 2] + ";" == t[i] + " = " + t[i + 2] + ";";
    var p1 := Emit(p, t[i] + " = " + t[i + 2] + ";");
    assert Reassign(p, i, "int", p.intVars) == Some(p1);
    assert Reassign(p1, i, "bool", p1.boolVars) == Some(p1);
    assert Default(p, i) == Some(p1);
  }

  /** A known bool variable, not just declared and not an int, followed by `=` becomes
      `NAME = V;` (Builder.cs:265-267). */
  lemma BoolReassignment(p: Pipeline, i: nat, files: Files, fuel: nat)
    requires 0 < i && i + 2 < |p.tokens| && IsPlainToken(p.tokens[i])
    requires p.tokens[i] in p.boolVars && p.tokens[i - 1] != "bool" && p.tokens[i + 1] == "="
    requires p.tokens[i] !in p.intVars && p.tokens[i] !in p.functionNames
    ensures ConvertAt(p, i, files, fuel) == Some((Emit(p, p.tokens[i] + " = " + p.tokens[i + 2] + ";"), fuel))
  {
    var t := p.tokens;
    assert t[i] + " " + t[i + 1] + " " + t[i + 2] + ";" == t[i] + " = " + t[i + 2] + ";";
    var p1 := Emit(p, t[i] + " = " + t[i + 2] + ";");
    assert Reassign(p, i, "int", p.intVars) == Some(p);
    assert Reassign(p, i, "bool", p.boolVars) == Some(p1);
    assert Default(p, i) == Some(p1);
  }

  /** A token of no case goes to the default branch. */
  lemma ConvertAtPlain(p: Pipeline, i: nat, files: Files, fuel: nat)
    requires i < |p.tokens| && IsPlainToken(p.tokens[i])
    ensures ConvertAt(p, i, files, fuel)
         == if Default(p, i).None? then None else Some((Default(p, i).value, fuel))
  {
  }

  /** A function name that is no int or bool variable is a call unless `function` precedes it. */
  lemma DefaultCall(p: Pipeline, i: nat)
    requires i < |p.tokens|
    requires p.tokens[i] in p.functionNames && p.tokens[i] !in p.intVars && p.tokens[i] !in p.boolVars
    ensures Default(p, i) == if i == 0 then None
                             else if p.tokens[i - 1] == "function" then Some(p)
                             else CallLoop(Emit(p, p.tokens[i] + "("), i)
  {
    assert Reassign(p, i, "int", p.intVars) == Some(p);
    assert Reassign(p, i, "bool", p.boolVars) == Some(p);
  }

  /** A known function name not preceded by `function` throws at index 0; elsewhere it adds
      `NAME(`, one entry per argument, and its last entry ends in `);` (Builder.cs:268-295). */
  lemma CallSite(p: Pipeline, i: nat, files: Files, fuel: nat)
    requires i < |p.tokens| && IsPlainToken(p.tokens[i])
    requires p.tokens[i] in p.functionNames && p.tokens[i] !in p.intVars && p.tokens[i] !in p.boolVars
    ensures i == 0 ==> ConvertAt(p, i, files, fuel).None?
    ensures var r := ConvertAt(p, i, files, fuel);
      0 < i && p.tokens[i - 1] != "function" && r.Some? ==>
        var q := r.value.0;
        && |q.converted| > |p.converted|
        && p.converted <= q.converted
        && StartsWith(q.converted[|p.converted|], p.tokens[i] + "(")
        && Closed(q.converted)
        && |p.tokens| - |q.tokens| == |q.converted| - |p.converted| - 1
  {
    ConvertAtPlain(p, i, files, fuel);
    DefaultCall(p, i);
    if 0 < i && p.tokens[i - 1] != "function" {
      var e := Emit(p, p.tokens[i] + "(");
      if CallLoop(e, i).Some? {
        var q := CallLoop(e, i).value;
        assert ConvertAt(p, i, files, fuel) == Some((q, fuel));
        CallLoopCloses(e, i);
        CallLoopCounts(e, i);
        CallLoopKeepsEntries(e, i);
        LastExtendedKeepsPrefix(p.converted, p.tokens[i] + "(", q.converted);
      }
    }
  }

  // ---------------------------------------------------------------------------------------
  // #include (Builder.cs:239-243)
  // ---------------------------------------------------------------------------------------

  /** An include of a comment-free file appends its tokens to the END of Tokens (which is never
      cleared), replaces Lines, appends the names declared anywhere in the whole token list
      again, and adds the imports the whole list needs; a missing file is an exit. */
  lemma IncludeAppendsFileTokens(p: Pipeline, i: nat, files: Files, fuel: nat)
    requires i + 1 < |p.tokens| && p.tokens[i] == "#include"
    ensures p.tokens[i + 1] !in files ==> ConvertAt(p, i, files, fuel).None?
    ensures var path := p.tokens[i + 1];
      path in files ==>
      var tokens := p.tokens + LexLines(files[path]);
      0 < fuel && NoCommentLine(files[path]) && FunctionDeclarations(tokens).Some? ==>
        ConvertAt(p, i, files, fuel) ==
          Some((p.(lines := TerminatedFrom(files[path], 0), tokens := tokens,
                   functionNames := p.functionNames + FunctionDeclarations(tokens).value,
                   imports := CheckImports(tokens, p.imports)), fuel - 1))
  {
    var path := p.tokens[i + 1];
    if path in files && NoCommentLine(files[path]) {
      ReadLinesWithoutComments(files[path], p.tokens);
    }
  }

  // ---------------------------------------------------------------------------------------
  // Tokens.Remove removes the first equal token (finding)
  // ---------------------------------------------------------------------------------------

  /** `function f(int a){` after `int x = 1`: the parameter step removes the `int` of the earlier
      declaration and the `)`, and leaves the parameter's own `int` and `a` in place. */
  lemma ParamRemovesEarlierTokens()
    ensures var before := ["x", "=", "1", "function", "f", "int", "a"];
      var after := ["", ""];
      Param(Initial.(tokens := ["int"] + before + [")"] + after), 6, true).value.tokens == before + after
  {
    var before := ["x", "=", "1", "function", "f", "int", "a"];
    assert ")" !in before && before[5] == "int";
    ParamAfterEarlierType(Initial.(tokens := ["int"] + before + [")"] + ["", ""]), 6, before, ["", ""]);
  }

  /** When an `int` opens the list, the parameter's `Remove(Tokens[j])` takes that opening `int`,
      and the following `Remove(Tokens[j + 1])` takes the first `)` after the parameter's name. */
  lemma ParamAfterEarlierType(p: Pipeline, j: nat, before: seq<string>, after: seq<string>)
    requires 0 < j && |before| == j + 1 && before[j - 1] == "int" && ")" !in before && |after| >= 2
    requires p.tokens == ["int"] + before + [")"] + after
    ensures Param(p, j, true).value.tokens == before + after
  {
    var t := p.tokens;
    var t1 := before + [")"] + after;
    assert t == [] + ["int"] + t1;
    RemoveFirstSplit([], "int", t1);
    assert t[j] == "int" && t1[j + 1] == ")";
    RemoveFirstSplit(before, ")", after);
  }

  /** `Remove(v)` on a list whose first `v` follows `a` removes that one. */
  lemma {:induction false} RemoveFirstSplit(a: seq<string>, v: string, b: seq<string>)
    requires v !in a
    ensures RemoveFirst(a + [v] + b, v) == a + b
  {
    if a != [] {
      assert (a + [v] + b)[1..] == a[1..] + [v] + b;
      RemoveFirstSplit(a[1..], v, b);
      assert [a[0]] + (a[1..] + b) == a + b;
    }
  }

  /** The removal the code's evident intent asks for: the type and the name of the parameter at
      `j`, and nothing else. */
  function DropParam(t: seq<string>, j: nat): (r: seq<string>)
    requires j + 1 < |t|
    ensures |r| == |t| - 2
    ensures forall k :: 0 <= k < j ==> r[k] == t[k]
    ensures forall k :: j <= k < |r| ==> r[k] == t[k + 2]
  {
    t[..j] + t[j + 2..]
  }

  /** Removing by position keeps every other token, in order, whatever tokens equal to the
      parameter's occur elsewhere. */
  lemma DropParamKeepsOthers(t: seq<string>, j: nat)
    requires j + 1 < |t|
    ensures multiset(DropParam(t, j)) + multiset{t[j], t[j + 1]} == multiset(t)
  {
    assert t == t[..j] + [t[j], t[j + 1]] + t[j + 2..];
  }

  /** In the same example the intended removal leaves the earlier declaration intact. */
  lemma DropParamOnExample()
    ensures var t := ["int", "x", "=", "1", "function", "f", "int", "a", ")", "", ""];
      DropParam(t, 6) == ["int", "x", "=", "1", "function", "f", ")", "", ""]
  {
  }
}
