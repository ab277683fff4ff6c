/** The two scans the C# compiler runs over the whole token list before translating:
    `SearchForFunctions` (Builder.cs:122-131) and `CheckForImports` (Builder.cs:133-157). */
module BuilderScan {
  import opened Base

  // ---------------------------------------------------------------------------------------
  // SearchForFunctions
  // ---------------------------------------------------------------------------------------

  /** The names that `SearchForFunctions` appends after visiting the tokens before index `n`:
      the token after every `function` except `main`, once per occurrence; None when the last
      token is `function`, where `Tokens[i + 1]` throws. */
  function DeclaredNames(t: seq<string>, n: nat): Option<seq<string>>
    requires n <= |t|
  {
    if n == 0 then Some([])
    else
      match DeclaredNames(t, n - 1)
      case None => None
      case Some(names) =>
        if t[n - 1] != "function" then Some(names)
        else if n >= |t| then None
        else if t[n] == "main" then Some(names)
        else Some(names + [t[n]])
  }

  /** What `SearchForFunctions` appends to `FunctionNames` for the token list `t`. */
  function FunctionDeclarations(t: seq<string>): Option<seq<string>>
  {
    DeclaredNames(t, |t|)
  }

  /** `function` followed by `name` at index `k`. */
  predicate DeclaresAt(t: seq<string>, k: int, name: string)
  {
    0 <= k && k + 1 < |t| && t[k] == "function" && t[k + 1] == name
  }

  lemma {:induction false} DeclaredNamesFailure(t: seq<string>, n: nat)
    requires n <= |t|
    ensures DeclaredNames(t, n).None? <==> n == |t| && n > 0 && t[n - 1] == "function"
  {
    if n > 0 {
      DeclaredNamesFailure(t, n - 1);
    }
  }

  lemma {:induction false} DeclaredNamesMembers(t: seq<string>, n: nat, name: string)
    requires n <= |t| && DeclaredNames(t, n).Some?
    ensures name in DeclaredNames(t, n).value
        <==> name != "main" && exists k :: 0 <= k < n && DeclaresAt(t, k, name)
  {
    if n > 0 {
      DeclaredNamesMembers(t, n - 1, name);
      if DeclaresAt(t, n - 1, name) && name != "main" {
        assert name in DeclaredNames(t, n).value;
      }
      if exists k :: 0 <= k < n && DeclaresAt(t, k, name) {
        var k :| 0 <= k < n && DeclaresAt(t, k, name);
        if k < n - 1 {
          assert exists k :: 0 <= k < n - 1 && DeclaresAt(t, k, name);
        }
      }
    }
  }

  /** `SearchForFunctions` throws exactly when the last token is `function`; otherwise a name is
      recorded iff it is not `main` and follows some `function` token (Builder.cs:126-129). */
  lemma FunctionDeclarationsSpec(t: seq<string>, name: string)
    ensures FunctionDeclarations(t).None? <==> |t| > 0 && t[|t| - 1] == "function"
    ensures FunctionDeclarations(t).Some? ==>
              ((name in FunctionDeclarations(t).value) <==>
               (name != "main" && exists k :: DeclaresAt(t, k, name)))
  {
    DeclaredNamesFailure(t, |t|);
    if FunctionDeclarations(t).Some? {
      DeclaredNamesMembers(t, |t|, name);
    }
  }

  /** A name declared twice is recorded twice. */
  lemma FunctionDeclarationsKeepDuplicates()
    ensures FunctionDeclarations(["function", "f", "function", "f", ""]) == Some(["f", "f"])
  {
    var t := ["function", "f", "function", "f", ""];
    assert t[0] == "function" && t[1] == "f" && t[2] == "function" && t[3] == "f";
    assert "f" != "main" && "f" != "function" && "" != "function";
    assert DeclaredNames(t, 0) == Some([]);
    assert [] + [t[1]] == ["f"] && ["f"] + [t[3]] == ["f", "f"];
    assert DeclaredNames(t, 1) == Some(["f"]);
    assert DeclaredNames(t, 2) == Some(["f"]);
    assert DeclaredNames(t, 3) == Some(["f", "f"]);
    assert DeclaredNames(t, 4) == Some(["f", "f"]);
  }

  // ---------------------------------------------------------------------------------------
  // CheckForImports
  // ---------------------------------------------------------------------------------------

  /** The DawnLang operations that need a C header (Builder.cs:136-141) ... */
  const FunctionsRequiringImports: seq<string> := ["print", "print_int", "print_str", "bool"]

  /** ... and the header each one needs (Builder.cs:144-149). */
  const CorrespondingImport: seq<string> := ["<stdio.h>", "<stdio.h>", "<stdio.h>", "<stdbool.h>"]

  /** `RequiredImports` after the table loop has visited its first `n` entries. */
  function ResolveImports(t: seq<string>, imports: seq<string>, n: nat): seq<string>
    requires n <= |FunctionsRequiringImports|
  {
    if n == 0 then imports
    else
      var before := ResolveImports(t, imports, n - 1);
      if FunctionsRequiringImports[n - 1] in t && CorrespondingImport[n - 1] !in before
      then before + [CorrespondingImport[n - 1]]
      else before
  }

  /** `RequiredImports` after `CheckForImports`. */
  function CheckImports(t: seq<string>, imports: seq<string>): seq<string>
  {
    ResolveImports(t, imports, |FunctionsRequiringImports|)
  }

  predicate NoDuplicates(s: seq<string>)
  {
    forall a, b :: 0 <= a < b < |s| ==> s[a] != s[b]
  }

  /** Does the table, up to entry `n`, ask for `header` on the tokens `t`? */
  predicate Needed(t: seq<string>, header: string, n: nat)
    requires n <= |FunctionsRequiringImports|
  {
    exists k :: 0 <= k < n && FunctionsRequiringImports[k] in t && CorrespondingImport[k] == header
  }

  lemma {:induction false} ResolveImportsSpec(t: seq<string>, imports: seq<string>, n: nat, header: string)
    requires n <= |FunctionsRequiringImports|
    ensures |ResolveImports(t, imports, n)| >= |imports|
    ensures ResolveImports(t, imports, n)[..|imports|] == imports
    ensures header in ResolveImports(t, imports, n) <==> header in imports || Needed(t, header, n)
    ensures NoDuplicates(imports) ==> NoDuplicates(ResolveImports(t, imports, n))
  {
    if n > 0 {
      ResolveImportsSpec(t, imports, n - 1, header);
      var before := ResolveImports(t, imports, n - 1);
      if Needed(t, header, n) && !Needed(t, header, n - 1) {
        assert FunctionsRequiringImports[n - 1] in t && CorrespondingImport[n - 1] == header;
      }
      if NoDuplicates(imports) && FunctionsRequiringImports[n - 1] in t && CorrespondingImport[n - 1] !in before {
        var after := before + [CorrespondingImport[n - 1]];
        forall a, b | 0 <= a < b < |after|
          ensures after[a] != after[b]
        {
          if b == |before| {
            assert after[a] in before;
          }
        }
      }
    }
  }

  /** `CheckForImports` only appends, never records a header twice, and records `<stdio.h>`
      iff `print`, `print_int` or `print_str` occurs and `<stdbool.h>` iff `bool` occurs
      (Builder.cs:153-156). */
  lemma CheckImportsSpec(t: seq<string>, imports: seq<string>)
    ensures imports <= CheckImports(t, imports)
    ensures NoDuplicates(imports) ==> NoDuplicates(CheckImports(t, imports))
    ensures "<stdio.h>" in CheckImports(t, imports)
        <==> "<stdio.h>" in imports || "print" in t || "print_int" in t || "print_str" in t
    ensures "<stdbool.h>" in CheckImports(t, imports) <==> "<stdbool.h>" in imports || "bool" in t
    ensures forall h :: h in CheckImports(t, imports) ==> h in imports || h in CorrespondingImport
  {
    var n := |FunctionsRequiringImports|;
    ResolveImportsSpec(t, imports, n, "<stdio.h>");
    ResolveImportsSpec(t, imports, n, "<stdbool.h>");
    assert Needed(t, "<stdio.h>", n) <==> "print" in t || "print_int" in t || "print_str" in t by {
      if "print" in t { assert FunctionsRequiringImports[0] in t && CorrespondingImport[0] == "<stdio.h>"; }
      if "print_int" in t { assert FunctionsRequiringImports[1] in t && CorrespondingImport[1] == "<stdio.h>"; }
      if "print_str" in t { assert FunctionsRequiringImports[2] in t && CorrespondingImport[2] == "<stdio.h>"; }
    }
    assert Needed(t, "<stdbool.h>", n) <==> "bool" in t by {
      if "bool" in t { assert FunctionsRequiringImports[3] in t && CorrespondingImport[3] == "<stdbool.h>"; }
    }
    forall h | h in CheckImports(t, imports)
      ensures h in imports || h in CorrespondingImport
    {
      ResolveImportsSpec(t, imports, n, h);
    }
  }

  /** Starting from no imports, the headers come out in table order, not in the order the
      operations occur in the program. */
  lemma CheckImportsTableOrder(t: seq<string>)
    ensures CheckImports(t, [])
         == (if "print" in t || "print_int" in t || "print_str" in t then ["<stdio.h>"] else [])
          + (if "bool" in t then ["<stdbool.h>"] else [])
  {
    assert FunctionsRequiringImports[0] == "print" && CorrespondingImport[0] == "<stdio.h>";
    assert FunctionsRequiringImports[1] == "print_int" && CorrespondingImport[1] == "<stdio.h>";
    assert FunctionsRequiringImports[2] == "print_str" && CorrespondingImport[2] == "<stdio.h>";
    assert FunctionsRequiringImports[3] == "bool" && CorrespondingImport[3] == "<stdbool.h>";
    assert ResolveImports(t, [], 0) == [];
    var r1 := ResolveImports(t, [], 1);
    var r2 := ResolveImports(t, [], 2);
    var r3 := ResolveImports(t, [], 3);
    assert r1 == (if "print" in t then ["<stdio.h>"] else []);
    assert r2 == (if "print" in t || "print_int" in t then ["<stdio.h>"] else []);
    assert r3 == (if "print" in t || "print_int" in t || "print_str" in t then ["<stdio.h>"] else []);
  }

  /** A second `CheckForImports` over the same tokens changes nothing. */
  lemma CheckImportsIdempotent(t: seq<string>, imports: seq<string>)
    ensures CheckImports(t, CheckImports(t, imports)) == CheckImports(t, imports)
  {
    var once := CheckImports(t, imports);
    forall n | 0 <= n <= |FunctionsRequiringImports|
      ensures ResolveImports(t, once, n) == once
    {
      ResolveImportsStable(t, imports, once, n);
    }
  }

  lemma {:induction false} ResolveImportsStable(t: seq<string>, imports: seq<string>, once: seq<string>, n: nat)
    requires n <= |FunctionsRequiringImports| && once == CheckImports(t, imports)
    ensures ResolveImports(t, once, n) == once
  {
    if n > 0 {
      ResolveImportsStable(t, imports, once, n - 1);
      if FunctionsRequiringImports[n - 1] in t {
        ResolveImportsSpec(t, imports, |FunctionsRequiringImports|, CorrespondingImport[n - 1]);
        assert Needed(t, CorrespondingImport[n - 1], |FunctionsRequiringImports|);
      }
    }
  }
}
