/** The translator of the C# compiler (`ConvertTokens`, Builder.cs:159-302), the `#include`
    re-entry into `ReadFile`/`SearchForFunctions`/`CheckForImports` it triggers, and the line
    content of `CreateCFile` (Builder.cs:304-317), as functions over the value of the static
    fields. */
module BuilderConvert {
  import opened Base
  import opened BuilderLexer
  import opened BuilderScan

  /** The static list fields of `Builder` (Builder.cs:10-18). */
  datatype Pipeline = Pipeline(
    lines: seq<string>,
    tokens: seq<string>,
    converted: seq<string>,
    intVars: seq<string>,
    stringVars: seq<string>,
    boolVars: seq<string>,
    imports: seq<string>,
    functionNames: seq<string>,
    intListNames: seq<string>)

  /** Every list starts out empty. */
  const Initial: Pipeline := Pipeline([], [], [], [], [], [], [], [], [])

  /** Where `#include` finds a file's lines: path to lines; a path outside the map is a file that
      does not exist, on which `ReadFile` exits. */
  type Files = map<string, seq<string>>

  // ---------------------------------------------------------------------------------------
  // The three passes as pipeline steps
  // ---------------------------------------------------------------------------------------

  /** `ReadFile` on the given lines: `Lines` replaced, `Tokens` appended to. */
  function ReadInto(p: Pipeline, source: seq<string>): Option<Pipeline>
  {
    match ReadLines(source, p.tokens)
    case None => None
    case Some((lines, tokens)) => Some(p.(lines := lines, tokens := tokens))
  }

  /** `SearchForFunctions`: names appended to `FunctionNames`. */
  function SearchIn(p: Pipeline): Option<Pipeline>
  {
    match FunctionDeclarations(p.tokens)
    case None => None
    case Some(names) => Some(p.(functionNames := p.functionNames + names))
  }

  /** `CheckForImports`. */
  function CheckIn(p: Pipeline): Pipeline
  {
    p.(imports := CheckImports(p.tokens, p.imports))
  }

  // ---------------------------------------------------------------------------------------
  // Changes to ConvertedTokens
  // ---------------------------------------------------------------------------------------

  /** `ConvertedTokens.Add(entry)`. */
  function Emit(p: Pipeline, entry: string): Pipeline
  {
    p.(converted := p.converted + [entry])
  }

  /** `ConvertedTokens[ConvertedTokens.Count - 1] += suffix`. */
  function Append(p: Pipeline, suffix: string): Pipeline
    requires |p.converted| > 0
  {
    p.(converted := p.converted[..|p.converted| - 1] + [p.converted[|p.converted| - 1] + suffix])
  }

  // ---------------------------------------------------------------------------------------
  // Function headers (Builder.cs:202-225)
  // ---------------------------------------------------------------------------------------

  /** One `int` (isInt) or `string` parameter at `j`: the entry, the variable, and the two
      `Tokens.Remove` calls, each of which deletes the FIRST token equal to its argument. */
  function Param(p: Pipeline, j: nat, isInt: bool): (r: Option<Pipeline>)
    requires j < |p.tokens|
    ensures r.Some? <==> j + 3 < |p.tokens|
    ensures r.Some? ==> |r.value.tokens| == |p.tokens| - 2
  {
    var t := p.tokens;
    if j + 3 >= |t| then None
    else
      var name := t[j + 1];
      var entry := (if isInt then "int " + name else "char " + name + "[]")
                   + (if t[j + 3] != "{" then "," else "");
      var t1 := RemoveFirst(t, t[j]);
      var t2 := RemoveFirst(t1, t1[j + 1]);
      Some(p.(converted := p.converted + [entry], tokens := t2,
              intVars := if isInt then p.intVars + [name] else p.intVars,
              stringVars := if isInt then p.stringVars else p.stringVars + [name]))
  }

  /** One pass of the parameter loop body at `j`: an `int` parameter, then (re-reading
      `Tokens[j]`) a `string` parameter, else `}`, which ends the loop (the flag). */
  function ParamIteration(p: Pipeline, j: nat): (r: Option<(Pipeline, bool)>)
    requires j < |p.tokens|
    ensures r.Some? ==> |r.value.0.tokens| <= |p.tokens| && |r.value.0.converted| >= |p.converted|
  {
    var t := p.tokens;
    var afterInt := if t[j] == "int" then Param(p, j, true) else Some(p);
    match afterInt
    case None => None
    case Some(q) =>
      if q.tokens[j] == "string" then
        match Param(q, j, false)
        case None => None
        case Some(q') => Some((q', false))
      else Some((q, q.tokens[j] == "}"))
  }

  /** The parameter loop from `j` on, ending with the `){` entry. */
  function ParamLoop(p: Pipeline, j: nat): (r: Option<Pipeline>)
    ensures r.Some? ==> |r.value.tokens| <= |p.tokens| && |r.value.converted| > |p.converted|
    decreases |p.tokens| - j
  {
    if j >= |p.tokens| then Some(Emit(p, "){"))
    else
      match ParamIteration(p, j)
      case None => None
      case Some((q, stop)) => if stop then Some(Emit(q, "){")) else ParamLoop(q, j + 1)
  }

  // ---------------------------------------------------------------------------------------
  // Call sites (Builder.cs:268-295)
  // ---------------------------------------------------------------------------------------

  /** One pass of the argument loop body at `j`: a known int or string variable after `j`
      becomes an entry (with a `,` when one follows) and is removed from `Tokens` by first
      occurrence; otherwise `)` at `j` ends the loop (the flag). */
  function CallIteration(p: Pipeline, j: nat): (r: Option<(Pipeline, bool)>)
    requires j < |p.tokens|
    ensures r.Some? ==> |r.value.0.tokens| <= |p.tokens| && |r.value.0.converted| >= |p.converted|
  {
    var t := p.tokens;
    if j + 1 >= |t| then None
    else if t[j + 1] in p.intVars || t[j + 1] in p.stringVars then
      if j + 2 >= |t| then None
      else
        var arg := t[j + 1] + (if t[j + 2] == "," then "," else "");
        Some((Emit(p, arg).(tokens := RemoveFirst(t, t[j + 1])), false))
    else Some((p, t[j] == ")"))
  }

  /** The argument loop from `j` on; the last entry finally gets `);`. */
  function CallLoop(p: Pipeline, j: nat): (r: Option<Pipeline>)
    requires |p.converted| > 0
    ensures r.Some? ==> |r.value.tokens| <= |p.tokens| && |r.value.converted| >= |p.converted|
    decreases |p.tokens| - j
  {
    if j >= |p.tokens| then Some(Append(p, ");"))
    else
      match CallIteration(p, j)
      case None => None
      case Some((q, stop)) => if stop then Some(Append(q, ");")) else CallLoop(q, j + 1)
  }

  // ---------------------------------------------------------------------------------------
  // List literals (Builder.cs:244-255)
  // ---------------------------------------------------------------------------------------

  /** The element loop from `z` on: tokens are appended to the last entry up to the first `]`,
      which closes it with `};`. */
  function ListLoop(p: Pipeline, z: nat): (r: Pipeline)
    requires |p.converted| > 0
    ensures |r.converted| == |p.converted| && r.tokens == p.tokens
    decreases |p.tokens| - z
  {
    if z >= |p.tokens| then p
    else if p.tokens[z] != "]" then ListLoop(Append(p, p.tokens[z]), z + 1)
    else Append(p, "};")
  }

  // ---------------------------------------------------------------------------------------
  // The default case (Builder.cs:260-296)
  // ---------------------------------------------------------------------------------------

  /** Reassignment of a known `int` or `bool` variable; `Tokens[i - 1]` throws when `i` is 0. */
  function Reassign(p: Pipeline, i: nat, declarer: string, vars: seq<string>): Option<Pipeline>
    requires i < |p.tokens|
  {
    var t := p.tokens;
    if t[i] !in vars then Some(p)
    else if i == 0 then None
    else if t[i - 1] == declarer then Some(p)
    else if i + 1 >= |t| then None
    else if t[i + 1] != "=" then Some(p)
    else if i + 2 >= |t| then None
    else Some(Emit(p, t[i] + " " + t[i + 1] + " " + t[i + 2] + ";"))
  }

  /** A token matching no keyword: int reassignment, bool reassignment, then a call. */
  function Default(p: Pipeline, i: nat): (r: Option<Pipeline>)
    requires i < |p.tokens|
    ensures r.Some? ==> |r.value.tokens| <= |p.tokens|
  {
    match Reassign(p, i, "int", p.intVars)
    case None => None
    case Some(p1) =>
      match Reassign(p1, i, "bool", p1.boolVars)
      case None => None
      case Some(p2) =>
        var t := p2.tokens;
        if t[i] !in p2.functionNames then Some(p2)
        else if i == 0 then None
        else if t[i - 1] == "function" then Some(p2)
        else CallLoop(Emit(p2, t[i] + "("), i)
  }

  // ---------------------------------------------------------------------------------------
  // The switch (Builder.cs:166-297)
  // ---------------------------------------------------------------------------------------

  /** `#include PATH`: the file's tokens are appended to `Tokens`, then function names and
      imports are searched again over the whole list. `fuel` bounds the number of includes. */
  function Include(p: Pipeline, i: nat, files: Files, fuel: nat): Option<(Pipeline, nat)>
    requires i < |p.tokens|
  {
    if i + 1 >= |p.tokens| || p.tokens[i + 1] !in files || fuel == 0 then None
    else
      match ReadInto(p, files[p.tokens[i + 1]])
      case None => None
      case Some(p1) =>
        match SearchIn(p1)
        case None => None
        case Some(p2) => Some((CheckIn(p2), fuel - 1))
  }

  /** The cases of the `switch (Tokens[i])` (Builder.cs:166-297). */
  datatype Case = Print | PrintStr | IntDecl | BoolDecl | StringDecl | PrintInt | For | Then
                | FunctionDecl | If | Else | CloseBrace | IncludeFile | ListDecl | PrintListElement
                | Other

  /** The case label a token selects. */
  function CaseOf(k: string): Case
  {
    if k == "print" then Print
    else if k == "print_str" then PrintStr
    else if k == "int" then IntDecl
    else if k == "bool" then BoolDecl
    else if k == "string" then StringDecl
    else if k == "print_int" then PrintInt
    else if k == "for" then For
    else if k == "then" then Then
    else if k == "function" then FunctionDecl
    else if k == "if" then If
    else if k == "else" then Else
    else if k == "}" then CloseBrace
    else if k == "#include" then IncludeFile
    else if k == "List<int>" then ListDecl
    else if k == "print_list_element" then PrintListElement
    else Other
  }

  /** Every case of the switch except `#include`; None where the source throws. */
  function ConvertKeyword(p: Pipeline, i: nat): (r: Option<Pipeline>)
    requires i < |p.tokens| && CaseOf(p.tokens[i]) != IncludeFile
    ensures r.Some? ==> |r.value.tokens| <= |p.tokens|
  {
    var t := p.tokens;
    var n := |t|;
    match CaseOf(t[i])
    case Print =>
      if i + 1 >= n then None else Some(Emit(p, "printf(" + t[i + 1] + ");"))
    case PrintStr =>
      if i + 1 >= n then None else Some(Emit(p, "printf(\"%s\\n\"," + t[i + 1] + ");"))
    case IntDecl =>
      if i + 3 >= n then None
      else Some(Emit(p, "int " + t[i + 1] + t[i + 2] + t[i + 3] + ";").(intVars := p.intVars + [t[i + 1]]))
    case BoolDecl =>
      if i + 3 >= n then None
      else Some(Emit(p, "bool " + t[i + 1] + " = " + t[i + 3] + ";").(boolVars := p.boolVars + [t[i + 1]]))
    case StringDecl =>
      if i + 3 >= n then None
      else Some(Emit(p, "char " + t[i + 1] + "[]" + t[i + 2] + t[i + 3] + ";").(stringVars := p.stringVars + [t[i + 1]]))
    case PrintInt =>
      if i + 1 >= n then None else Some(Emit(p, "printf(\"%d\\n\"," + t[i + 1] + ");"))
    case For =>
      if i + 5 >= n then None
      else Some(Emit(p, "for(int i = " + t[i + 3] + "; i <= " + t[i + 5] + "; i++){"))
    case Then =>
      if i + 1 >= n then None else if t[i + 1] == "end" then Some(Emit(p, "};")) else Some(p)
    case FunctionDecl =>
      if i + 1 >= n then None
      else if t[i + 1] == "main" then Some(Emit(p, "int main(){"))
      else ParamLoop(Emit(p, "void " + t[i + 1] + "("), i)
    case If =>
      if i + 3 >= n then None else Some(Emit(p, "if(" + t[i + 1] + t[i + 2] + t[i + 3] + "){"))
    case Else =>
      if i + 1 >= n then None else Some(Emit(p, "else" + (if t[i + 1] != "if" then "{" else "")))
    case CloseBrace =>
      Some(Emit(p, "}"))
    case ListDecl =>
      if i + 1 >= n then None
      else Some(ListLoop(Emit(p, "int " + t[i + 1] + "[] = {").(intListNames := p.intListNames + [t[i + 1]]), i + 5))
    case PrintListElement =>
      if i + 1 >= n then None
      else if t[i + 1] !in p.intListNames then Some(p)
      else if i + 4 >= n then None
      else Some(Emit(p, "printf(\"%d\\n\", " + t[i + 1] + "[" + t[i + 4] + "]);"))
    case Other =>
      Default(p, i)
  }

  /** One pass of the `ConvertTokens` loop body at index `i`, with the include budget left. */
  function ConvertAt(p: Pipeline, i: nat, files: Files, fuel: nat): (r: Option<(Pipeline, nat)>)
    requires i < |p.tokens|
    ensures r.Some? ==> r.value.1 <= fuel
    ensures r.Some? && r.value.1 == fuel ==> |r.value.0.tokens| <= |p.tokens|
  {
    if CaseOf(p.tokens[i]) == IncludeFile then Include(p, i, files, fuel)
    else
      match ConvertKeyword(p, i)
      case None => None
      case Some(q) => Some((q, fuel))
  }

  /** The `ConvertTokens` loop from index `i` on (`Tokens.Count` is re-read every pass). */
  function ConvertFrom(p: Pipeline, i: nat, files: Files, fuel: nat): Option<Pipeline>
    decreases fuel, |p.tokens| - i
  {
    if i >= |p.tokens| then Some(p)
    else
      match ConvertAt(p, i, files, fuel)
      case None => None
      case Some((q, fuel')) => ConvertFrom(q, i + 1, files, fuel')
  }

  /** `ConvertTokens`. */
  function Convert(p: Pipeline, files: Files, fuel: nat): Option<Pipeline>
  {
    ConvertFrom(p, 0, files, fuel)
  }

  // ---------------------------------------------------------------------------------------
  // CreateCFile and the whole BuildFile pipeline
  // ---------------------------------------------------------------------------------------

  /** The lines `CreateCFile` writes: one `#include` line per import, then every converted
      entry, in order. */
  function CFileLines(imports: seq<string>, converted: seq<string>): (r: seq<string>)
    ensures |r| == |imports| + |converted|
    ensures forall k :: 0 <= k < |imports| ==> r[k] == "#include " + imports[k] + "\n"
    ensures r[|imports|..] == converted
  {
    seq(|imports|, k requires 0 <= k < |imports| => "#include " + imports[k] + "\n") + converted
  }

  /** `BuildFile` up to the C text: None where a step throws. */
  function Build(source: seq<string>, files: Files, fuel: nat): Option<seq<string>>
  {
    match ReadInto(Initial, source)
    case None => None
    case Some(p1) =>
      match SearchIn(p1)
      case None => None
      case Some(p2) =>
        match Convert(CheckIn(p2), files, fuel)
        case None => None
        case Some(p3) => Some(CFileLines(p3.imports, p3.converted))
  }
}
