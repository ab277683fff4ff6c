/** The keyword-dispatch translator of the C rewrite (`Compile`, New-Compiler/Tokenization.c:112-243)
    over the contents `t` of the `Tokens` table. A read of `Tokens` past its last slot is
    undefined behaviour in C; the model stops the run there, keeping what was written before. */
module CTranslate {
  import opened Base
  import opened CLexer

  /** The entries written to `convertedTokens` so far, in order from slot 0, and whether the run
      goes on: `ok` is false once a read past the end of `Tokens` has stopped it. */
  datatype Run = Run(out: seq<string>, ok: bool)

  /** The two `printf` format prefixes (Tokenization.c:202, 218). */
  const IntFormat := "printf(\"%%d\\n\","
  const StringFormat := "printf(\"%%s\\n\","

  /** The copy loop of `print` (Tokenization.c:144-156) from slot `z`: copies each slot up to
      the closing quote, with a space after each one the quote does not follow. */
  function PrintLoop(t: seq<string>, z: nat, out: seq<string>): (r: Run)
    ensures out <= r.out
    decreases |t| - z
  {
    if z >= |t| then Run(out, true)
    else if t[z] == "\"" then Run(out + ["\""], true)
    else if z + 1 >= |t| then Run(out + [t[z]], false)
    else PrintLoop(t, z + 1, out + [t[z]] + (if t[z + 1] != "\"" then [" "] else []))
  }

  /** The copy loop of `C [` (Tokenization.c:171-183) from slot `z`: stops when the next slot is
      `-` or the one after is `End`, and copies a following `" "` slot along with its own. */
  function CopyLoop(t: seq<string>, z: nat, out: seq<string>): (r: Run)
    ensures out <= r.out
    decreases |t| - z
  {
    if z >= |t| then Run(out, true)
    else if z + 1 >= |t| then Run(out, false)
    else if t[z + 1] == "-" then Run(out, true)
    else if z + 2 >= |t| then Run(out, false)
    else if t[z + 2] == "End" then Run(out, true)
    else if t[z + 1] == " " then CopyLoop(t, z + 2, out + [t[z], t[z + 1]])
    else CopyLoop(t, z + 1, out + [t[z]])
  }

  /** `function main (` (Tokenization.c:123-130), where `t[i]` is `function` and `t[i + 1]` is
      `main`; without the `(` no other branch matches either. */
  function MainHeader(t: seq<string>, i: nat, out: seq<string>): (r: Run)
    requires i + 1 < |t|
    ensures out <= r.out
  {
    if i + 2 >= |t| then Run(out, false)
    else if t[i + 2] != "(" then Run(out, true)
    else if i + 4 >= |t| then Run(out + ["int main("], false)
    else Run(out + ["int main("] + [if t[i + 4] == "args)" then "int argc, char** argv)" else ")"], true)
  }

  /** `print` (Tokenization.c:139-159). */
  function PrintText(t: seq<string>, i: nat, out: seq<string>): (r: Run)
    requires i + 1 < |t|
    ensures out <= r.out
  {
    var o := out + ["printf(\""];
    if i + 2 >= |t| then Run(o, false)
    else if t[i + 2] != "\"" then Run(o, true)
    else
      var r := PrintLoop(t, i + 3, o);
      if r.ok then Run(r.out + [");"], true) else r
  }

  /** `#include` (Tokenization.c:160-167). */
  function Include(t: seq<string>, i: nat, out: seq<string>): (r: Run)
    requires i + 1 < |t|
    ensures out <= r.out
  {
    var header := if t[i + 1] == "dawnlang.io" then ["<stdio.h>\n"]
                  else if t[i + 1] == "dawnlang.data.types" then ["<string.h>\n"]
                  else [];
    Run(out + ["#include"] + header, true)
  }

  /** `C` (Tokenization.c:168-184). */
  function CBlock(t: seq<string>, i: nat, out: seq<string>): (r: Run)
    requires i + 1 < |t|
    ensures out <= r.out
  {
    if t[i + 1] == "[" then CopyLoop(t, i + 2, out) else Run(out, true)
  }

  /** `int` (Tokenization.c:185-199); the `Ints` bookkeeping is not modelled. */
  function IntDecl(t: seq<string>, i: nat, out: seq<string>): (r: Run)
    requires i + 1 < |t|
    ensures out <= r.out
  {
    var o := out + [t[i]] + [" "] + [t[i + 1]];
    if i + 2 >= |t| then Run(o, false)
    else if t[i + 2] != "=" then Run(o + [";"], true)
    else if i + 3 >= |t| then Run(o + [t[i + 2]], false)
    else Run(o + [t[i + 2]] + [t[i + 3]] + [";"], true)
  }

  /** `print.int` and `print.string` (Tokenization.c:200-205, 216-221). */
  function PrintValue(t: seq<string>, i: nat, out: seq<string>, format: string): (r: Run)
    requires i + 1 < |t|
    ensures out <= r.out
  {
    var o := out + [format];
    if i + 2 >= |t| then Run(o, false) else Run(o + [t[i + 2]] + [");"], true)
  }

  /** `string` (Tokenization.c:206-215): the five slots after the name are copied. */
  function StringDecl(t: seq<string>, i: nat, out: seq<string>): (r: Run)
    requires i + 1 < |t|
    ensures out <= r.out
  {
    var o := out + ["char "] + [t[i + 1]] + ["[]"];
    if i + 7 > |t| then Run(o + t[i + 2..], false) else Run(o + t[i + 2..i + 7] + [";"], true)
  }

  /** `realloc` (Tokenization.c:222-239); `modified` is the name without its last character,
      and an empty name makes `modified[length - 1]` a write before the array. */
  function Realloc(t: seq<string>, i: nat, out: seq<string>): (r: Run)
    requires i + 1 < |t|
    ensures out <= r.out
  {
    var o := out + ["strncpy("];
    if i + 2 >= |t| then Run(o, false)
    else
      var name := t[i + 2];
      var o' := o + [name] + ["\""];
      if i + 4 >= |t| then Run(o', false)
      else
        var o'' := o' + [t[i + 4]] + ["\""] + [","] + ["sizeof("];
        if |name| == 0 then Run(o'', false)
        else Run(o'' + [name[..|name| - 1]] + ["));"], true)
  }

  /** One pass of `Compile`'s loop at slot `i` (Tokenization.c:123-239). */
  function Dispatch(t: seq<string>, i: nat, out: seq<string>): (r: Run)
    requires i + 1 < |t|
    ensures out <= r.out
  {
    if t[i] == "function" && t[i + 1] == "main" then MainHeader(t, i, out)
    else if t[i] == "{" then Run(out + ["{"], true)
    else if t[i] == "}" then Run(out + ["}"], true)
    else if t[i] == "print" then PrintText(t, i, out)
    else if t[i] == "#include" then Include(t, i, out)
    else if t[i] == "C" then CBlock(t, i, out)
    else if t[i] == "int" then IntDecl(t, i, out)
    else if t[i] == "print.int" then PrintValue(t, i, out, IntFormat)
    else if t[i] == "string" then StringDecl(t, i, out)
    else if t[i] == "print.string" then PrintValue(t, i, out, StringFormat)
    else if t[i] == "realloc" then Realloc(t, i, out)
    else Run(out, true)
  }

  /** `Compile`'s loop from slot `i`: every slot but the last is dispatched in order. */
  function CompileFrom(t: seq<string>, i: nat, out: seq<string>): (r: Run)
    ensures out <= r.out
    decreases |t| - i
  {
    if i + 1 >= |t| then Run(out, true)
    else
      var r := Dispatch(t, i, out);
      if !r.ok then r else CompileFrom(t, i + 1, r.out)
  }

  /** What `Compile` writes to `convertedTokens`, from slot 0. */
  function Compiled(t: seq<string>): Run
  {
    CompileFrom(t, 0, [])
  }

  /** The `Tokens` table as `TokenizeFile` leaves it: tokens, then slots never written. */
  predicate LexedTable(t: seq<string>)
  {
    forall k :: 0 <= k < |t| ==> t[k] == "" || IsToken(t[k])
  }

  /** The words `ws` with a `" "` entry between each two. */
  function Spaced(ws: seq<string>): seq<string>
  {
    if |ws| <= 1 then ws else [ws[0], " "] + Spaced(ws[1..])
  }

  // ---------------------------------------------------------------------------------------
  // Properties of the translation.
  // ---------------------------------------------------------------------------------------

  /** `print("...")`: the words up to the closing quote slot `e` are copied with one space
      between each two, then the quote. */
  lemma {:induction false} PrintLoopWords(t: seq<string>, z: nat, e: nat, out: seq<string>)
    requires z <= e < |t| && t[e] == "\""
    requires forall k :: z <= k < e ==> t[k] != "\""
    ensures PrintLoop(t, z, out) == Run(out + Spaced(t[z..e]) + ["\""], true)
    decreases e - z
  {
    if z == e {
      assert t[z..e] == [];
    } else {
      assert t[z..e][1..] == t[z + 1..e];
      if z + 1 == e {
        assert t[z..e] == [t[z]];
      } else {
        assert Spaced(t[z..e]) == [t[z], " "] + Spaced(t[z + 1..e]);
      }
      PrintLoopWords(t, z + 1, e, out + [t[z]] + (if t[z + 1] != "\"" then [" "] else []));
    }
  }

  /** The `C [` loop copies a run of consecutive slots, starting at `z`. */
  lemma {:induction false} CopyLoopCopiesRun(t: seq<string>, z: nat, out: seq<string>)
    requires z <= |t|
    ensures var r := CopyLoop(t, z, out);
      |r.out| - |out| <= |t| - z && r.out == out + t[z..z + (|r.out| - |out|)]
    decreases |t| - z
  {
    if z + 2 < |t| && t[z + 1] != "-" && t[z + 2] != "End" {
      var next := if t[z + 1] == " " then z + 2 else z + 1;
      CopyLoopCopiesRun(t, next, out + t[z..next]);
      var r := CopyLoop(t, next, out + t[z..next]);
      assert CopyLoop(t, z, out) == r by {
        assert t[z..next] == if t[z + 1] == " " then [t[z], t[z + 1]] else [t[z]];
      }
      JoinRun(t, z, next, next + (|r.out| - |out + t[z..next]|), out);
    } else {
      assert t[z..z] == [];
    }
  }

  lemma JoinRun(t: seq<string>, z: nat, mid: nat, e: nat, out: seq<string>)
    requires z <= mid <= e <= |t|
    ensures out + t[z..mid] + t[mid..e] == out + t[z..e]
  {
    assert t[z..e] == t[z..mid] + t[mid..e];
  }

  /** The `C [` loop without its `" "` case. */
  function CopyPlain(t: seq<string>, z: nat, out: seq<string>): Run
    decreases |t| - z
  {
    if z >= |t| then Run(out, true)
    else if z + 1 >= |t| then Run(out, false)
    else if t[z + 1] == "-" then Run(out, true)
    else if z + 2 >= |t| then Run(out, false)
    else if t[z + 2] == "End" then Run(out, true)
    else CopyPlain(t, z + 1, out + [t[z]])
  }

  /** Over a table that `TokenizeFile` filled, no slot holds `" "`, so the `" "` case of the
      `C [` loop (Tokenization.c:176-180) never runs. */
  lemma {:induction false} CopyLoopSpaceCaseDead(t: seq<string>, z: nat, out: seq<string>)
    requires LexedTable(t)
    ensures CopyLoop(t, z, out) == CopyPlain(t, z, out)
    decreases |t| - z
  {
    if z + 2 < |t| && t[z + 1] != "-" && t[z + 2] != "End" {
      if t[z + 1] != "" {
        TokenShape(t[z + 1]);
      }
      CopyLoopSpaceCaseDead(t, z + 1, out + [t[z]]);
    }
  }

  /** Over a table that `TokenizeFile` filled, `function main (` always becomes `int main(` and
      `)`: no slot holds `"args)"`, so the `int argc, char** argv)` branch is dead. */
  lemma MainHeaderNeverTakesArgs(t: seq<string>, i: nat, out: seq<string>)
    requires LexedTable(t) && i + 4 < |t|
    requires t[i] == "function" && t[i + 1] == "main" && t[i + 2] == "("
    ensures Dispatch(t, i, out) == Run(out + ["int main(", ")"], true)
  {
    if t[i + 4] != "" {
      TokenShape(t[i + 4]);
    }
  }

  /** `function main (` as evidently intended: the lexer stores `args` and `)` in two slots, so
      `main(args)` is recognised by reading both and then takes `argc` and `argv`. */
  function MainHeaderIntended(t: seq<string>, i: nat, out: seq<string>): Run
    requires i + 1 < |t|
  {
    if i + 2 >= |t| then Run(out, false)
    else if t[i + 2] != "(" then Run(out, true)
    else if i + 4 >= |t| then Run(out + ["int main("], false)
    else Run(out + ["int main("] + [if t[i + 3] == "args" && t[i + 4] == ")" then "int argc, char** argv)" else ")"], true)
  }

  /** On the slots of `function main(args)` the code as written declares `main` without
      parameters, while the intended header takes `argc` and `argv`. */
  lemma MainWithArgs(t: seq<string>, i: nat, out: seq<string>)
    requires i + 4 < |t| && t[i..i + 5] == ["function", "main", "(", "args", ")"]
    ensures Dispatch(t, i, out) == Run(out + ["int main(", ")"], true)
    ensures MainHeaderIntended(t, i, out) == Run(out + ["int main(", "int argc, char** argv)"], true)
  {
    assert t[i] == t[i..i + 5][0] && t[i + 1] == t[i..i + 5][1] && t[i + 2] == t[i..i + 5][2];
    assert t[i + 3] == t[i..i + 5][3] && t[i + 4] == t[i..i + 5][4];
  }

  /** Elsewhere the intended header agrees with the one as written: a header with neither an
      `args` slot nor an `args)` slot is translated the same by both. */
  lemma MainHeaderIntendedAgrees(t: seq<string>, i: nat, out: seq<string>)
    requires i + 1 < |t| && (i + 4 < |t| ==> t[i + 3] != "args" && t[i + 4] != "args)")
    ensures MainHeaderIntended(t, i, out) == MainHeader(t, i, out)
  {
  }

  /** `int NAME = V` and `int NAME` (Tokenization.c:185-199). */
  lemma IntDeclaration(t: seq<string>, i: nat, out: seq<string>)
    requires i + 3 < |t| && t[i] == "int"
    ensures t[i + 2] == "=" ==> Dispatch(t, i, out) == Run(out + ["int", " ", t[i + 1], "=", t[i + 3], ";"], true)
    ensures t[i + 2] != "=" ==> Dispatch(t, i, out) == Run(out + ["int", " ", t[i + 1], ";"], true)
  {
  }

  /** `print.int V` and `print.string V` write the format, the slot after the next, and `);`. */
  lemma PrintValues(t: seq<string>, i: nat, out: seq<string>)
    requires i + 2 < |t|
    ensures t[i] == "print.int" ==> Dispatch(t, i, out) == Run(out + [IntFormat, t[i + 2], ");"], true)
    ensures t[i] == "print.string" ==> Dispatch(t, i, out) == Run(out + [StringFormat, t[i + 2], ");"], true)
  {
  }

  /** `#include`: the two known library names map to C headers, any other writes only
      `#include`. */
  lemma Includes(t: seq<string>, i: nat, out: seq<string>)
    requires i + 1 < |t| && t[i] == "#include"
    ensures t[i + 1] == "dawnlang.io" ==> Dispatch(t, i, out) == Run(out + ["#include", "<stdio.h>\n"], true)
    ensures t[i + 1] == "dawnlang.data.types" ==> Dispatch(t, i, out) == Run(out + ["#include", "<string.h>\n"], true)
    ensures t[i + 1] != "dawnlang.io" && t[i + 1] != "dawnlang.data.types" ==> Dispatch(t, i, out) == Run(out + ["#include"], true)
  {
  }

  /** `realloc`: the `sizeof` argument is the name with its last character dropped, and an
      empty name stops the run. */
  lemma ReallocSizeof(t: seq<string>, i: nat, out: seq<string>)
    requires i + 4 < |t| && t[i] == "realloc"
    ensures var name := t[i + 2];
      var r := Dispatch(t, i, out);
      (r.ok <==> |name| > 0)
      && (r.ok ==> r.out == out + ["strncpy(", name, "\"", t[i + 4], "\"", ",", "sizeof(", name[..|name| - 1], "));"])
      && (r.ok ==> name[..|name| - 1] + [name[|name| - 1]] == name)
  {
    var name := t[i + 2];
    if |name| > 0 {
      assert name[..|name| - 1] + [name[|name| - 1]] == name;
    }
  }

  /** A slot holding none of the keywords writes nothing. */
  lemma NonKeywordWritesNothing(t: seq<string>, i: nat, out: seq<string>)
    requires i + 1 < |t|
    requires t[i] !in {"function", "{", "}", "print", "#include", "C", "int", "print.int", "string", "print.string", "realloc"}
    ensures Dispatch(t, i, out) == Run(out, true)
  {
  }

  // ---------------------------------------------------------------------------------------
  // The translation of a slot does not depend on what was written before it.
  // ---------------------------------------------------------------------------------------

  /** `r` with `before` written ahead of its entries. */
  function After(before: seq<string>, r: Run): Run
  {
    Run(before + r.out, r.ok)
  }

  lemma {:induction false} PrintLoopContextFree(t: seq<string>, z: nat, out: seq<string>)
    ensures PrintLoop(t, z, out) == After(out, PrintLoop(t, z, []))
    decreases |t| - z
  {
    if z < |t| && t[z] != "\"" && z + 1 < |t| {
      var tail := [t[z]] + (if t[z + 1] != "\"" then [" "] else []);
      assert out + [t[z]] + (if t[z + 1] != "\"" then [" "] else []) == out + tail;
      assert [] + [t[z]] + (if t[z + 1] != "\"" then [" "] else []) == tail;
      PrintLoopContextFree(t, z + 1, out + tail);
      PrintLoopContextFree(t, z + 1, tail);
      assert (out + tail) + PrintLoop(t, z + 1, []).out == out + (tail + PrintLoop(t, z + 1, []).out);
    } else {
      assert out + [] == out;
    }
  }

  lemma {:induction false} CopyLoopContextFree(t: seq<string>, z: nat, out: seq<string>)
    ensures CopyLoop(t, z, out) == After(out, CopyLoop(t, z, []))
    decreases |t| - z
  {
    if z + 2 < |t| && t[z + 1] != "-" && t[z + 2] != "End" {
      if t[z + 1] == " " {
        CopyStepContextFree(t, z, z + 2, [t[z], t[z + 1]], out);
      } else {
        CopyStepContextFree(t, z, z + 1, [t[z]], out);
      }
    } else {
      assert out + [] == out;
    }
  }

  /** One copying pass of the `C [` loop, then the rest of it. */
  lemma {:induction false} CopyStepContextFree(t: seq<string>, z: nat, next: nat, copied: seq<string>, out: seq<string>)
    requires z < next
    requires CopyLoop(t, z, out) == CopyLoop(t, next, out + copied)
    requires CopyLoop(t, z, []) == CopyLoop(t, next, [] + copied)
    ensures CopyLoop(t, z, out) == After(out, CopyLoop(t, z, []))
    decreases |t| - z, 0
  {
    assert [] + copied == copied;
    if next <= |t| {
      CopyLoopContextFree(t, next, out + copied);
      CopyLoopContextFree(t, next, copied);
    } else {
      assert CopyLoop(t, next, out + copied) == Run(out + copied, true);
    }
    assert (out + copied) + CopyLoop(t, next, []).out == out + (copied + CopyLoop(t, next, []).out);
  }

  /** Each slot's entries are appended after what earlier slots wrote, whatever that was. */
  lemma DispatchContextFree(t: seq<string>, i: nat, out: seq<string>)
    requires i + 1 < |t|
    ensures Dispatch(t, i, out) == After(out, Dispatch(t, i, []))
  {
    if t[i] == "function" && t[i + 1] == "main" {
      MainHeaderContextFree(t, i, out);
    } else if t[i] == "{" || t[i] == "}" {
      assert [] + [t[i]] == [t[i]];
    } else if t[i] == "print" {
      PrintTextContextFree(t, i, out);
    } else if t[i] == "#include" {
      IncludeContextFree(t, i, out);
    } else if t[i] == "C" {
      if t[i + 1] == "[" {
        CopyLoopContextFree(t, i + 2, out);
      } else {
        assert out + [] == out;
      }
    } else if t[i] == "int" {
      IntDeclContextFree(t, i, out);
    } else if t[i] == "print.int" {
      PrintValueContextFree(t, i, out, IntFormat);
    } else if t[i] == "string" {
      StringDeclContextFree(t, i, out);
    } else if t[i] == "print.string" {
      PrintValueContextFree(t, i, out, StringFormat);
    } else if t[i] == "realloc" {
      ReallocContextFree(t, i, out);
    } else {
      assert out + [] == out;
    }
  }

  lemma MainHeaderContextFree(t: seq<string>, i: nat, out: seq<string>)
    requires i + 1 < |t|
    ensures MainHeader(t, i, out) == After(out, MainHeader(t, i, []))
  {
    assert out + [] == out;
    if i + 4 < |t| && t[i + 2] == "(" {
      var w := ["int main(", if t[i + 4] == "args)" then "int argc, char** argv)" else ")"];
      assert [] + w == w;
    } else if i + 2 < |t| && t[i + 2] == "(" {
      assert [] + ["int main("] == ["int main("];
    }
  }

  lemma PrintTextContextFree(t: seq<string>, i: nat, out: seq<string>)
    requires i + 1 < |t|
    ensures PrintText(t, i, out) == After(out, PrintText(t, i, []))
  {
    var o := out + ["printf(\""];
    assert [] + ["printf(\""] == ["printf(\""];
    if i + 2 < |t| && t[i + 2] == "\"" {
      PrintLoopContextFree(t, i + 3, o);
      PrintLoopContextFree(t, i + 3, ["printf(\""]);
      var w := PrintLoop(t, i + 3, []).out;
      assert o + w == out + (["printf(\""] + w);
      assert o + w + [");"] == out + (["printf(\""] + w + [");"]);
    }
  }

  lemma IncludeContextFree(t: seq<string>, i: nat, out: seq<string>)
    requires i + 1 < |t|
    ensures Include(t, i, out) == After(out, Include(t, i, []))
  {
    var header := if t[i + 1] == "dawnlang.io" then ["<stdio.h>\n"]
                  else if t[i + 1] == "dawnlang.data.types" then ["<string.h>\n"]
                  else [];
    assert out + ["#include"] + header == out + (["#include"] + header);
    assert [] + ["#include"] + header == ["#include"] + header;
  }

  lemma IntDeclContextFree(t: seq<string>, i: nat, out: seq<string>)
    requires i + 1 < |t|
    ensures IntDecl(t, i, out) == After(out, IntDecl(t, i, []))
  {
    var w := [t[i], " ", t[i + 1]];
    assert [] + w == w;
    assert forall x: seq<string> {:trigger out + w + x} :: out + w + x == out + (w + x);
  }

  lemma PrintValueContextFree(t: seq<string>, i: nat, out: seq<string>, format: string)
    requires i + 1 < |t|
    ensures PrintValue(t, i, out, format) == After(out, PrintValue(t, i, [], format))
  {
    assert [] + [format] == [format];
    assert out + [format] + [t[i + 1]] == out + ([format] + [t[i + 1]]);
    if i + 2 < |t| {
      assert out + [format] + [t[i + 2], ");"] == out + ([format] + [t[i + 2], ");"]);
    }
  }

  lemma StringDeclContextFree(t: seq<string>, i: nat, out: seq<string>)
    requires i + 1 < |t|
    ensures StringDecl(t, i, out) == After(out, StringDecl(t, i, []))
  {
    var w := ["char ", t[i + 1], "[]"];
    assert [] + w == w;
    if i + 7 > |t| {
      assert out + w + t[i + 2..] == out + (w + t[i + 2..]);
    } else {
      assert out + w + t[i + 2..i + 7] + [";"] == out + (w + t[i + 2..i + 7] + [";"]);
    }
  }

  lemma ReallocContextFree(t: seq<string>, i: nat, out: seq<string>)
    requires i + 1 < |t|
    ensures Realloc(t, i, out) == After(out, Realloc(t, i, []))
  {
    assert [] + ["strncpy("] == ["strncpy("];
    if i + 2 < |t| {
      var name := t[i + 2];
      var w := ["strncpy(", name, "\""];
      assert out + ["strncpy("] + [name, "\""] == out + w;
      assert [] + ["strncpy("] + [name, "\""] == w;
      if i + 4 < |t| {
        var v := [t[i + 4], "\"", ",", "sizeof("];
        assert out + w + v == out + (w + v);
        if |name| > 0 {
          var x := [name[..|name| - 1], "));"];
          assert out + w + v + x == out + (w + v + x);
        }
      }
    }
  }

  /** The entries `Compile` writes from slot `i` when nothing has been written yet. */
  lemma {:induction false} CompileFromContextFree(t: seq<string>, i: nat, out: seq<string>)
    ensures CompileFrom(t, i, out) == After(out, CompileFrom(t, i, []))
    decreases |t| - i
  {
    if i + 1 < |t| {
      var d := Dispatch(t, i, []);
      DispatchContextFree(t, i, out);
      if d.ok {
        CompileFromContextFree(t, i + 1, out + d.out);
        CompileFromContextFree(t, i + 1, d.out);
        JoinAfter(out, d.out, CompileFrom(t, i + 1, []));
      }
    } else {
      assert out + [] == out;
    }
  }

  lemma JoinAfter(out: seq<string>, mid: seq<string>, r: Run)
    ensures After(out + mid, r) == After(out, After(mid, r))
  {
    assert (out + mid) + r.out == out + (mid + r.out);
  }

  /** `Compile`'s output is the output of slot 0 followed by that of the table from slot 1. */
  lemma CompiledBySlots(t: seq<string>)
    requires |t| >= 2
    ensures var d := Dispatch(t, 0, []);
      Compiled(t) == if d.ok then After(d.out, CompileFrom(t, 1, [])) else d
  {
    var d := Dispatch(t, 0, []);
    if d.ok {
      CompileFromContextFree(t, 1, d.out);
    }
  }
}
