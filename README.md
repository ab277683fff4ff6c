# DawnLang to C translation, modelled in Dafny

DawnLang is a small language that is compiled by translating it to C. The repository holds two translators.

The first is the C# compiler, `Builder.cs`. Its static lists (`Lines`, `Tokens`, `ConvertedTokens`, `IntVars`, `StringVars`, `BoolVars`, `RequiredImports`, `FunctionNames`, `IntListNames`) are the state of the pipeline. The pipeline runs five passes:

- `ReadFile` splits every line into tokens. It first appends `;`. Only spaces and commas are protected inside quotes. Each of `; ( ) , { } [ ]` and space flushes the pending token, even an empty one.
- `SearchForFunctions` records the declared function names.
- `CheckForImports` adds the C headers the program needs.
- `ConvertTokens` makes one cursor pass over `Tokens`. It dispatches on each token and appends to `ConvertedTokens`. Function headers and call sites also delete tokens with `List.Remove`.
- `CreateCFile` writes the headers and the converted entries.

The second is the C rewrite, `New-Compiler/Tokenization.c`. It works on fixed global tables:

- `TokenizeFile` splits the rows of `fileContents` into the slots of `Tokens`. It works character by character, counting stored slots with `tokenSpot`.
- `Compile` walks `Tokens` and appends C fragments to `convertedTokens` through `addConvertedToken`, which bumps a location counter.

The model follows the source's imperative form:

- **`Builder.Builder`** is a class. Its nine `seq<string>` fields are the static lists. Every pass is a method that updates them in place.
- **`CCompiler.Compiler`** is a class over three `array<string>` tables, updated slot by slot.

Every method is proved equal to a specification function:

- `BuilderLexer`, `BuilderScan` and `BuilderConvert` on the C# side.
- `CLexer` and `CTranslate` on the C side.

What the source promises is proved about those functions as lemmas:

- in `BuilderLexer`, `BuilderScan` and `BuilderConvertProperties`;
- in `CLexer` and `CTranslate`.

`Base` holds the shared pieces. One of them is `RemoveFirst`, which is `List<string>.Remove`: it deletes the first equal element, wherever it is.

Several things in the source throw or are undefined:

- C# index-out-of-range exceptions (which end the build through `BuildFile`'s `catch`);
- C reads past a table, and an empty name given to `realloc`;
- missing files.

These are modelled explicitly, as `None` or as a failed `Run` (`ok == false`), never as preconditions. There are two exceptions, both listed under "Left out". A write past the end of `Tokens` or `convertedTokens` is excluded: the methods require enough slots instead. A write past the end of `Ints` is not modelled at all: the 501st `int` declaration with an initialiser writes past `Ints[500]`, and the model runs on as if it had not.

The source as written has a few defects. The model keeps them, and "Findings" shows each with an input:

- the comment skip in `ReadFile`;
- `Remove` by value in function headers;
- the dead `args)` test in the C `Compile`.

## Model

| member | source | states |
|---|---|---|
| Base.RemoveFirst | Builder.cs:210-211 | `Remove(v)` leaves a list without `v` unchanged, otherwise shortens it by one, and introduces no new element |
| Base.RemoveFirstAt | Builder.cs:210-211 | `Remove(v)` deletes exactly the element at the first index holding `v`; all others stay in order |
| Base.RemoveFirstCount | Builder.cs:280 | `Remove(v)` takes away one copy of `v` and nothing else (multiset) |
| BuilderLexer.IsDelimiter | Builder.cs:95-96 | defines the characters that end the pending `TokenString`: `;`, space, `(`, `)`, `,`, `{`, `}`, `[`, `]` |
| BuilderLexer.IsKeptDelimiter | Builder.cs:102-111 | defines the delimiters that are also stored as tokens of their own: `,`, `)`, `}`, `[`, `]` (shape stated by `AtomsExcludeSeparators`) |
| BuilderLexer.Step | Builder.cs:83-113 | defines one character of the loop: a quote toggles `Quotation`, a quoted space or comma is kept, another non-delimiter is appended, and a delimiter flushes `TokenString` and stores a kept delimiter (content stated by `StepContent`, shape by `StepKeepsAtoms`) |
| BuilderLexer.LexChars | Builder.cs:77-114 | defines the character loop over a whole string (content stated by `LexCharsContent`, token count by `LexCharsCount`) |
| BuilderLexer.Terminated | Builder.cs:71-72 | defines a line with `;` appended when it does not already end in one (`TerminatedNotComment`) |
| BuilderLexer.ScanLines | Builder.cs:68-115 | defines the line loop from line `i` as written, comment bump included: the final `Lines` and `Tokens`, or None where it throws (`ScanLinesUnfold`, `ScanLinesWithoutComment`) |
| BuilderLexer.ScanFrom | Builder.cs:77-115 | defines the character loop over the terminated line `i`, then the line loop after the line it ended on (`ScanLinesAfterLine`) |
| BuilderLexer.ReadLines | Builder.cs:42-116 | defines `ReadFile` on a file's lines, appending to the uncleared `Tokens` (`ReadLinesGivesAtoms`, `ReadLinesWithoutComments`) |
| BuilderLexer.CommentIsPrefix | Builder.cs:81 | the character-level comment test is exactly `StartsWith("//")` |
| BuilderLexer.SemicolonIsSuffix | Builder.cs:71 | the character-level test is exactly `EndsWith(";")` |
| BuilderLexer.TerminateAt | Builder.cs:71-72 | only line `i` changes, and it becomes the line with `;` appended unless it already ends in `;` |
| BuilderLexer.TerminatedFrom | Builder.cs:71-72 | terminating every line from `i` on keeps the number of lines |
| BuilderLexer.ScanLine | Builder.cs:77-114 | the character loop, when it does not throw, leaves the line cursor on a line that exists |
| BuilderLexer.ScanLinesDone | Builder.cs:68 | the line loop does nothing once the cursor is past the last line |
| BuilderLexer.ScanLineUnfold | Builder.cs:81-113 | one pass of the character loop: the comment test moves the cursor, then column `j` of the line the cursor is on is lexed, which throws when that line or column does not exist |
| BuilderLexer.ScanLinesUnfold | Builder.cs:68-115 | one pass of the line loop: terminate line `i`, run the character loop, continue after the line it ended on |
| BuilderLexer.ScanLinesAfterLine | Builder.cs:68-115 | the line loop continues from the line after the one the character loop ended on, with its tokens |
| BuilderLexer.StepKeepsAtoms | Builder.cs:83-113 | one character keeps every emitted token in the lexer's token shape |
| BuilderLexer.LexCharsKeepsAtoms | Builder.cs:77-114 | the character loop over a line emits only tokens of the lexer's shape |
| BuilderLexer.ScanLineKeepsAtoms | Builder.cs:77-114 | so does the character loop as written, comment bump included |
| BuilderLexer.ScanLinesKeepsAtoms | Builder.cs:68-115 | so does the whole line loop |
| BuilderLexer.ReadLinesGivesAtoms | Builder.cs:68-115 | whatever the lines, `ReadFile` only adds tokens that are one of `, ) } [ ]` or text (possibly empty) without `; ( ) { } [ ]` |
| BuilderLexer.AtomsExcludeSeparators | Builder.cs:95-111 | hence `{`, `;` and `(` are never tokens |
| BuilderLexer.StepContent | Builder.cs:83-113 | one character adds its visible part (everything but unquoted separators) to the tokens read back to back |
| BuilderLexer.LexCharsContent | Builder.cs:77-114 | the tokens of a line, read back to back, are its characters without the unquoted separators, in order |
| BuilderLexer.LexCharsCount | Builder.cs:98-113 | the loop emits one token per unprotected delimiter, and two for each of `, ) } [ ]` |
| BuilderLexer.LexCharsFlushesAtSemicolon | Builder.cs:95-112 | a line ending in `;` leaves no pending token |
| BuilderLexer.LexLineContent | Builder.cs:71-113 | after the `;`, every visible character of a line ends up in a token, in order, and the pending token is always flushed |
| BuilderLexer.ScanLineWithoutComment | Builder.cs:77-114 | on a line that is not a comment, the character loop stays on the line and emits that line's tokens |
| BuilderLexer.TerminatedNotComment | Builder.cs:71-81 | appending `;` does not turn a line into a comment |
| BuilderLexer.ScanLineOfLine | Builder.cs:74-114 | a non-comment line's tokens are appended after the tokens already stored |
| BuilderLexer.ScanLinesStep | Builder.cs:68-115 | a non-comment line contributes its own tokens and the loop moves to the next line |
| BuilderLexer.ScanLinesWithoutComment | Builder.cs:68-115 | without comment lines, the loop terminates every line and appends each line's tokens in order |
| BuilderLexer.TerminatedFromStep | Builder.cs:71-72 | terminating line `i` leaves the later lines alone |
| BuilderLexer.LexLinesFrom | Builder.cs:68-115 | the per-line lexer handles a non-comment line, then the rest |
| BuilderLexer.LexCharsAppendsOnly | Builder.cs:74-75 | since `TokenString` and `Quotation` restart on every line, tokens stored earlier are only extended |
| BuilderLexer.LexCharsShift | Builder.cs:74-75 | tokens stored earlier do not influence the lexing of a line |
| BuilderLexer.ReadLinesWithoutComments | Builder.cs:68-115 | without comment lines, `ReadFile` is the line-by-line lexer: no token spans two lines |
| BuilderLexer.LexLinesAppend | Builder.cs:68-115 | the intended lexer handles lines independently |
| BuilderLexer.LexLinesSkipsComment | Builder.cs:81-82 | the intended lexer drops a comment line and keeps everything around it |
| BuilderLexer.LexLinesOfComment | Builder.cs:81-82 | a comment line alone gives no tokens |
| BuilderLexer.CommentLineLosesNextLinesLastToken | Builder.cs:81-82 | as written, `//c` then `x` stores no token, where the intended lexer stores `x` |
| BuilderLexer.ReadCommentThenLine | Builder.cs:81-83 | the comment line's loop runs on over the next line, which has no `;`, and stops |
| BuilderLexer.CommentOnLastLineFails | Builder.cs:81-83 | as written, a comment on the last line reads `Lines[Lines.Count]`, which throws |
| BuilderLexer.LexLineOfLetter | Builder.cs:95-97 | a one-character line that is no delimiter and no quote is one token |
| BuilderScan.DeclaredNames | Builder.cs:126-129 | defines the names `SearchForFunctions` appends after visiting the first `n` tokens, or None where `Tokens[i + 1]` throws (`DeclaredNamesFailure`, `DeclaredNamesMembers`) |
| BuilderScan.FunctionDeclarations | Builder.cs:122-131 | defines what `SearchForFunctions` appends for the whole token list (`FunctionDeclarationsSpec`) |
| BuilderScan.ResolveImports | Builder.cs:153-156 | defines `RequiredImports` after the table loop has visited its first `n` entries (`ResolveImportsSpec`) |
| BuilderScan.CheckImports | Builder.cs:133-157 | defines `RequiredImports` after `CheckForImports` (`CheckImportsSpec`, `CheckImportsIdempotent`) |
| BuilderScan.DeclaredNamesFailure | Builder.cs:126-129 | the scan throws exactly when the last token is `function` |
| BuilderScan.DeclaredNamesMembers | Builder.cs:126-129 | a name is recorded exactly when it follows a `function` token and is not `main` |
| BuilderScan.FunctionDeclarationsSpec | Builder.cs:126-129 | `SearchForFunctions` throws iff the last token is `function`; otherwise it records exactly the non-`main` names after `function` |
| BuilderScan.FunctionDeclarationsKeepDuplicates | Builder.cs:129 | a name declared twice is recorded twice |
| BuilderScan.ResolveImportsSpec | Builder.cs:153-156 | the table loop only appends, records a header iff already present or asked for, and never records one twice |
| BuilderScan.CheckImportsSpec | Builder.cs:133-157 | `<stdio.h>` iff `print`, `print_int` or `print_str` occurs; `<stdbool.h>` iff `bool` occurs; no duplicate; nothing outside the table |
| BuilderScan.CheckImportsTableOrder | Builder.cs:153-156 | from no imports, headers come out in table order |
| BuilderScan.CheckImportsIdempotent | Builder.cs:153-156 | a second run on the same tokens changes nothing |
| BuilderScan.ResolveImportsStable | Builder.cs:153-156 | the table loop over already-resolved imports adds nothing |
| BuilderConvert.ReadInto | Builder.cs:42-116 | defines `ReadFile` as a step on the static lists: `Lines` replaced, `Tokens` appended to, or None where it throws |
| BuilderConvert.SearchIn | Builder.cs:122-131 | defines `SearchForFunctions` as a step: the scanned names appended to `FunctionNames`, or None |
| BuilderConvert.CheckIn | Builder.cs:133-157 | defines `CheckForImports` as a step: only `RequiredImports` changes |
| BuilderConvert.Reassign | Builder.cs:262-267 | defines one reassignment test of the default case: a known variable not after its declarer and followed by `=` adds `NAME = V;`, and a read at index 0 or past the end throws (`IntReassignment`, `BoolReassignment`, `ReassignGrows`) |
| BuilderConvert.Include | Builder.cs:239-243 | defines `#include`: the file's tokens are appended, names and imports are searched again, and one unit of the include budget is spent (`IncludeAppendsFileTokens`, `IncludeGrows`) |
| BuilderConvert.Param | Builder.cs:204-221 | a parameter throws iff `Tokens[j + 3]` is out of range; otherwise it removes exactly two tokens |
| BuilderConvert.ParamIteration | Builder.cs:204-223 | one pass of the parameter loop never grows `Tokens` and never shrinks `ConvertedTokens` |
| BuilderConvert.ParamLoop | Builder.cs:202-225 | the parameter loop never grows `Tokens` and always adds at least the `){` entry |
| BuilderConvert.CallIteration | Builder.cs:273-292 | one pass of the argument loop never grows `Tokens` and never shrinks `ConvertedTokens` |
| BuilderConvert.CallLoop | Builder.cs:271-294 | the argument loop never grows `Tokens` and never shrinks `ConvertedTokens` |
| BuilderConvert.ListLoop | Builder.cs:247-254 | the element loop changes only the last entry, never `Tokens` |
| BuilderConvert.Default | Builder.cs:260-296 | the default case never grows `Tokens` |
| BuilderConvert.ConvertKeyword | Builder.cs:166-297 | no case but `#include` grows `Tokens` |
| BuilderConvert.ConvertAt | Builder.cs:164-297 | a pass spends at most the include budget, and without an include it does not grow `Tokens` |
| BuilderConvert.CFileLines | Builder.cs:312-316 | the C file is one `#include H\n` line per import, in order, then every converted entry, in order |
| BuilderConvert.ConvertFrom | Builder.cs:164-298 | defines the `ConvertTokens` loop from index `i`, re-reading `Tokens.Count` each pass (`ConvertFromGrows`, `ConvertFromKeepsAtoms`) |
| BuilderConvert.Convert | Builder.cs:159-302 | defines `ConvertTokens` from index 0 |
| BuilderConvert.Build | Builder.cs:21-29 | defines `BuildFile` up to the C text: read, search, check imports, convert, then the file lines, or None where a step throws (`Builder.Builder.BuildFile` is proved equal to it) |
| BuilderConvertProperties.RemoveFirstKeepsAtoms | Builder.cs:210-211 | removing a token keeps every token in the lexer's shape |
| BuilderConvertProperties.ParamIterationGrows | Builder.cs:204-223 | a parameter pass keeps every earlier entry and may only extend the last |
| BuilderConvertProperties.ParamLoopGrows | Builder.cs:202-225 | so does the whole parameter loop |
| BuilderConvertProperties.CallIterationShape | Builder.cs:273-292 | an argument pass changes only `Tokens` and `ConvertedTokens`, adds at most one entry, removes one token per entry added, and changes nothing at `break` |
| BuilderConvertProperties.AppendShape | Builder.cs:208 | `+=` on the last entry keeps the others and extends the last |
| BuilderConvertProperties.AppendCloses | Builder.cs:294 | appending `);` closes the last entry |
| BuilderConvertProperties.CallLoopStep | Builder.cs:271-294 | the argument loop, unfolded once |
| BuilderConvertProperties.CallLoopFrame | Builder.cs:271-294 | the argument loop changes only `Tokens` and `ConvertedTokens` |
| BuilderConvertProperties.CallLoopCloses | Builder.cs:294 | the last entry of a call always ends in `);` |
| BuilderConvertProperties.CallLoopCounts | Builder.cs:276-291 | the argument loop removes exactly one token per argument entry it adds |
| BuilderConvertProperties.CallLoopKeepsEntries | Builder.cs:271-294 | the argument loop keeps every entry it finds and may only extend the last |
| BuilderConvertProperties.ListLoopShape | Builder.cs:247-254 | the element loop keeps every entry but the last, which it only extends |
| BuilderConvertProperties.ReassignGrows | Builder.cs:262-267 | a reassignment adds at most one entry and changes nothing else |
| BuilderConvertProperties.DefaultGrows | Builder.cs:260-296 | the default case keeps every earlier entry and changes only `Tokens` and `ConvertedTokens` |
| BuilderConvertProperties.ConvertKeywordGrows | Builder.cs:166-297 | every case keeps the earlier entries and only appends to the variable lists |
| BuilderConvertProperties.IncludeGrows | Builder.cs:239-243 | an include leaves `ConvertedTokens` alone and only appends to the other lists |
| BuilderConvertProperties.ConvertFromGrows | Builder.cs:164-298 | `ConvertTokens` never modifies an earlier entry and only appends to the variable, name and import lists |
| BuilderConvertProperties.ParamKeepsAtoms | Builder.cs:204-221 | a parameter keeps the tokens in the lexer's shape |
| BuilderConvertProperties.ParamIterationKeepsAtoms | Builder.cs:204-223 | so does a parameter pass |
| BuilderConvertProperties.ParamLoopKeepsAtoms | Builder.cs:202-225 | so does the parameter loop |
| BuilderConvertProperties.CallIterationKeepsAtoms | Builder.cs:273-292 | so does an argument pass |
| BuilderConvertProperties.CallLoopKeepsAtoms | Builder.cs:271-294 | so does the argument loop |
| BuilderConvertProperties.DefaultKeepsAtoms | Builder.cs:260-296 | so does the default case |
| BuilderConvertProperties.ConvertKeywordKeepsAtoms | Builder.cs:166-297 | so does every case but `#include` |
| BuilderConvertProperties.IncludeKeepsAtoms | Builder.cs:239-243 | so does an include, whose tokens come from `ReadFile` |
| BuilderConvertProperties.ConvertAtKeepsAtoms | Builder.cs:166-297 | so does every case |
| BuilderConvertProperties.ConvertFromKeepsAtoms | Builder.cs:164-298 | throughout `ConvertTokens` no token is `{`, so the tests at lines 207 and 216 never fail |
| BuilderConvertProperties.ParamShape | Builder.cs:204-221 | with no `{` token, a parameter adds one entry ending in `,`, records one variable, removes two tokens and brings in no `{` |
| BuilderConvertProperties.ParamIterationShape | Builder.cs:204-223 | a parameter pass adds entries ending in `,` and removes two tokens per entry |
| BuilderConvertProperties.ParamLoopEntries | Builder.cs:202-225 | the parameter loop adds one `,`-terminated entry per parameter, then `){` |
| BuilderConvertProperties.ParamLoopCounts | Builder.cs:204-220 | every parameter entry removes two tokens and records one variable |
| BuilderConvertProperties.FunctionHeader | Builder.cs:196-226 | a header on lexer output is `void NAME(`, one entry per parameter, each with a trailing comma, then `){` |
| BuilderConvertProperties.FixedTemplateAppendsOneEntry | Builder.cs:168-195 | a fixed-template case throws iff its last offset is out of range; otherwise it appends one entry, leaves `Tokens` alone and registers only the declared variable |
| BuilderConvertProperties.DeclarationAndLoopTemplates | Builder.cs:174-195 | `int` gives `int NAME=V;`; `for` counts `i` up to an inclusive bound; `then` closes a loop only before `end` |
| BuilderConvertProperties.PrintTemplates | Builder.cs:168-188 | `print` gives `printf(ARG);`; `print_str` and `print_int` give `printf("%s\n",ARG);` and `printf("%d\n",ARG);`; nothing else changes |
| BuilderConvertProperties.ListElementTemplate | Builder.cs:256-259 | `print_list_element` of a known list gives `printf("%d\n", NAME[IDX]);` from offsets 1 and 4, throws when offset 4 is missing, and writes nothing for an unknown list |
| BuilderConvertProperties.DeclarationTemplates | Builder.cs:178-185 | `bool` gives `bool NAME = V;` and registers NAME as a bool; `string` gives `char NAME[]=V;` and registers NAME as a string; nothing else changes |
| BuilderConvertProperties.BranchTemplates | Builder.cs:228-238 | `if` gives `if(A op B){`; `else` gives `else{`, or a bare `else` before `if`; `}` gives `}`; nothing else changes |
| BuilderConvertProperties.ListEnd | Builder.cs:247-254 | the element loop stops at the first `]` at or after its start, or at the end |
| BuilderConvertProperties.ListLoopContent | Builder.cs:247-254 | the last entry gets the tokens up to the first `]`, then `};` when that `]` exists |
| BuilderConvertProperties.ListDeclaration | Builder.cs:244-255 | `List<int>` registers the name and becomes `int NAME[] = {`, the elements from offset 5 up to `]`, then `};` |
| BuilderConvertProperties.IntReassignment | Builder.cs:262-264 | a known int, not just declared, followed by `=` becomes `NAME = V;` |
| BuilderConvertProperties.BoolReassignment | Builder.cs:265-267 | a known bool, not just declared, followed by `=` becomes `NAME = V;` |
| BuilderConvertProperties.ConvertAtPlain | Builder.cs:260 | a token of no case goes to the default branch |
| BuilderConvertProperties.DefaultCall | Builder.cs:268-270 | a function name that is no variable starts a call unless `function` precedes it, and throws at index 0 |
| BuilderConvertProperties.CallSite | Builder.cs:268-295 | a call adds `NAME(`, one entry per argument, and closes its last entry with `);` |
| BuilderConvertProperties.IncludeAppendsFileTokens | Builder.cs:239-243 | an include appends the file's tokens at the end of `Tokens`, which is never cleared, and rescans names and imports; a missing file exits |
| BuilderConvertProperties.ParamRemovesEarlierTokens | Builder.cs:210-211 | as written, `int x = 1` then `function f(int a)` loses the earlier `int` and the `)`, and keeps `int a` |
| BuilderConvertProperties.ParamAfterEarlierType | Builder.cs:210-211 | when an `int` opens the list and no `)` comes before the parameter's name, `Remove(Tokens[j])` takes the opening `int` and `Remove(Tokens[j + 1])` takes the first `)`; the parameter's own type and name stay |
| BuilderConvertProperties.RemoveFirstSplit | Builder.cs:210-211 | `Remove(v)` removes the first `v`, whatever follows |
| BuilderConvertProperties.DropParam | Builder.cs:210-211 | the intended removal deletes the two tokens at `j` and `j + 1` and keeps all others in order |
| BuilderConvertProperties.DropParamKeepsOthers | Builder.cs:210-211 | the intended removal takes away exactly the parameter's type and name |
| BuilderConvertProperties.DropParamOnExample | Builder.cs:210-211 | on the same example the intended removal keeps the earlier declaration |
| Builder.Builder.constructor | Builder.cs:10-18 | every list starts empty |
| Builder.Builder.ReadFile | Builder.cs:42-115 | a missing file fails; otherwise `Lines` is replaced by the file's lines and their tokens are appended to `Tokens` |
| Builder.Builder.TokenizeLines | Builder.cs:68-115 | the line loop leaves the terminated lines and the tokens the line-loop function gives, or throws exactly when it does |
| Builder.Builder.TokenizeLine | Builder.cs:70-114 | one pass keeps the number of lines and continues the loop after the line it ended on |
| Builder.Builder.TerminateLine | Builder.cs:71-72 | only line `i` changes, gaining a `;` |
| Builder.Builder.LexLineAt | Builder.cs:74-114 | the character loop stores exactly the tokens of the character-loop function, or throws exactly when it does |
| Builder.Builder.SearchForFunctions | Builder.cs:122-131 | appends exactly the names of the scan function, or throws exactly when it does |
| Builder.Builder.CheckForImports | Builder.cs:133-157 | `RequiredImports` becomes exactly the resolved import list |
| Builder.Builder.AppendToLast | Builder.cs:208 | only the last entry changes, extended by the suffix |
| Builder.Builder.AddParameter | Builder.cs:204-221 | the parameter's entry, variable and two first-occurrence removals, or the throw |
| Builder.Builder.ParameterStep | Builder.cs:204-223 | one pass of the parameter loop, with `break` at `}` |
| Builder.Builder.CollectParameters | Builder.cs:202-225 | the whole parameter loop and the closing `){` |
| Builder.Builder.ArgumentStep | Builder.cs:273-292 | one pass of the argument loop, with `break` at `)` |
| Builder.Builder.CollectArguments | Builder.cs:271-294 | the whole argument loop and the closing `);` |
| Builder.Builder.AppendListItems | Builder.cs:247-254 | the element loop of a list literal |
| Builder.Builder.ReassignAt | Builder.cs:262-267 | reassignment of a known int or bool variable, or the throw at index 0 |
| Builder.Builder.DefaultAt | Builder.cs:260-296 | the default case: reassignments, then a call |
| Builder.Builder.ConvertKeywordAt | Builder.cs:166-297 | every case of the switch but `#include` |
| Builder.Builder.ConvertBlockAt | Builder.cs:196-296 | the cases that run a loop or read the variable lists |
| Builder.Builder.ListElementAt | Builder.cs:256-259 | `print_list_element` of a known list |
| Builder.Builder.FunctionDeclarationAt | Builder.cs:196-227 | `int main(){`, or a `void` header with its parameters |
| Builder.Builder.ListDeclarationAt | Builder.cs:244-255 | `List<int>` with its element loop |
| Builder.Builder.IncludeAt | Builder.cs:239-243 | reads the file, appending its tokens, then runs both scans again |
| Builder.Builder.ConvertToken | Builder.cs:166-297 | one pass of the `ConvertTokens` loop |
| Builder.Builder.ConvertTokens | Builder.cs:159-303 | the whole translation, re-reading `Tokens.Count` every pass, or the throw |
| Builder.Builder.CreateCFile | Builder.cs:305-318 | the lines written are the header lines in order, then the converted entries in order |
| Builder.Builder.BuildFile | Builder.cs:21-41 | the C text of the file, or nothing where any pass throws or the file is missing |
| Builder.CFileLinesOf | Builder.cs:312-316 | header lines followed by the entries are the C file's lines |
| CLexer.IsSeparator | New-Compiler/Tokenization.c:34 | defines the fourteen characters that end the pending token (`TokenShape`) |
| CLexer.Step | New-Compiler/Tokenization.c:34-57 | defines one character of the loop: a separator flushes the pending token and, unless it is a space, is stored on its own, and any other character is appended (`StepText`, `CharsFromTokens`) |
| CLexer.CharsFrom | New-Compiler/Tokenization.c:32-58 | defines the character loop over a row from column `j` (`CharsFromText`, `CharsFromGrows`) |
| CLexer.RowEnd | New-Compiler/Tokenization.c:30-66 | defines one row: a fresh token, the character loop, then the end-of-row flush (`RowEndAppends`, `RowTokensText`) |
| CLexer.RowsFrom | New-Compiler/Tokenization.c:28-67 | defines the row loop from row `k` (`RowsFromAppends`, `RowsFromGrows`) |
| CLexer.Tokenize | New-Compiler/Tokenization.c:23-67 | defines the tokens `TokenizeFile` stores, in order from slot 0 (`TokenizeByRows`, `TokenizeGivesTokens`) |
| CLexer.Flush | New-Compiler/Tokenization.c:36-43 | flushing keeps every stored token |
| CLexer.CharsFromGrows | New-Compiler/Tokenization.c:32-58 | the character loop never rewrites a stored slot |
| CLexer.RowsFromGrows | New-Compiler/Tokenization.c:28-67 | the row loop never rewrites a stored slot |
| CLexer.CharsFromAppends | New-Compiler/Tokenization.c:32-58 | the character loop does not depend on the slots stored before it |
| CLexer.RowEndAppends | New-Compiler/Tokenization.c:30-66 | a row's tokens are appended after whatever `Tokens` holds |
| CLexer.RowsFromAppends | New-Compiler/Tokenization.c:28-67 | the rows from `k` on append their tokens, row after row |
| CLexer.TokenizeByRows | New-Compiler/Tokenization.c:28-67 | the tokens of a file are the tokens of its rows, concatenated: no token spans two rows |
| CLexer.CharsFromTokens | New-Compiler/Tokenization.c:32-58 | the character loop stores only tokens, and the pending token holds no separator |
| CLexer.RowTokensAreTokens | New-Compiler/Tokenization.c:30-66 | a row stores no empty token and no space |
| CLexer.RowsTokensAreTokens | New-Compiler/Tokenization.c:28-67 | so do all rows |
| CLexer.TokenizeGivesTokens | New-Compiler/Tokenization.c:28-67 | every stored slot is a lone non-space separator or a non-empty separator-free run |
| CLexer.TokenShape | New-Compiler/Tokenization.c:34 | a token is never empty, never a space and never `args)` |
| CLexer.CharsFromText | New-Compiler/Tokenization.c:32-58 | the stored tokens and the pending one, read back to back, are the characters so far without spaces |
| CLexer.StepText | New-Compiler/Tokenization.c:34-57 | one character adds itself, unless it is a space |
| CLexer.FlushText | New-Compiler/Tokenization.c:36-43 | a flush neither loses nor adds characters |
| CLexer.RowTokensText | New-Compiler/Tokenization.c:30-66 | a row's tokens read back to back are the row without its spaces, so no other character is dropped, repeated or reordered |
| CLexer.CharsFromShift | New-Compiler/Tokenization.c:32 | the loop over the tail of a row runs as over that tail alone |
| CLexer.CharsFromConcat | New-Compiler/Tokenization.c:32-58 | the loop over `a + b` is the loop over `a`, then over `b` |
| CLexer.CharsFromWord | New-Compiler/Tokenization.c:52-57 | a run of non-separators is appended to the pending token, in order |
| CLexer.CallRowTokens | New-Compiler/Tokenization.c:32-66 | a row `f m(a)` of three words is stored as the five slots `f`, `m`, `(`, `a`, `)` |
| CLexer.MainArgsRow | New-Compiler/Tokenization.c:32-66 | `function main(args)` is stored as `function`, `main`, `(`, `args`, `)` |
| CTranslate.PrintLoop | New-Compiler/Tokenization.c:144-156 | the `print` loop only appends |
| CTranslate.CopyLoop | New-Compiler/Tokenization.c:171-183 | the `C [` loop only appends |
| CTranslate.Dispatch | New-Compiler/Tokenization.c:123-239 | a slot's translation only appends |
| CTranslate.CompileFrom | New-Compiler/Tokenization.c:121-240 | `Compile`'s loop only appends |
| CTranslate.MainHeader | New-Compiler/Tokenization.c:123-130 | `function main` only appends: `int main(` then `)` after a `(`, nothing without one, and a stop where a slot read lies past the table (`MainHeaderNeverTakesArgs`) |
| CTranslate.PrintText | New-Compiler/Tokenization.c:139-159 | `print` only appends: `printf("`, then the quoted words when a quote follows, then `);` (`PrintLoopWords`) |
| CTranslate.Include | New-Compiler/Tokenization.c:160-167 | `#include` only appends: `#include`, then the header of a known library (`Includes`) |
| CTranslate.CBlock | New-Compiler/Tokenization.c:168-184 | `C` only appends: the copied block after `[`, nothing otherwise (`CopyLoopCopiesRun`) |
| CTranslate.IntDecl | New-Compiler/Tokenization.c:185-199 | `int` only appends: the declaration with or without an initialiser (`IntDeclaration`) |
| CTranslate.PrintValue | New-Compiler/Tokenization.c:200-221 | `print.int` and `print.string` only append: the format, the value slot and `);` (`PrintValues`) |
| CTranslate.StringDecl | New-Compiler/Tokenization.c:206-215 | `string` only appends: `char `, the name, `[]`, the next five slots and `;`, stopping where a slot lies past the table |
| CTranslate.Realloc | New-Compiler/Tokenization.c:222-239 | `realloc` only appends the `strncpy` entries, and stops on an empty name (`ReallocSizeof`) |
| CTranslate.Compiled | New-Compiler/Tokenization.c:112-243 | defines what `Compile` writes to `convertedTokens` from slot 0 (`CompiledBySlots`, `CCompiler.Compiler.Compile`) |
| CTranslate.PrintLoopWords | New-Compiler/Tokenization.c:144-156 | the words up to the closing quote are copied with one space between each two, then the quote |
| CTranslate.CopyLoopCopiesRun | New-Compiler/Tokenization.c:171-183 | the `C [` loop copies a run of consecutive slots from its start |
| CTranslate.CopyLoopSpaceCaseDead | New-Compiler/Tokenization.c:176-180 | on a table `TokenizeFile` filled, the `" "` case never runs |
| CTranslate.MainHeaderNeverTakesArgs | New-Compiler/Tokenization.c:123-130 | on a table `TokenizeFile` filled, `function main (` always becomes `int main(` then `)` |
| CTranslate.MainWithArgs | New-Compiler/Tokenization.c:126 | on `main(args)` the code as written declares no parameters, while the intended header takes `argc` and `argv` |
| CTranslate.MainHeaderIntendedAgrees | New-Compiler/Tokenization.c:123-130 | elsewhere the intended header translates as the code does |
| CTranslate.IntDeclaration | New-Compiler/Tokenization.c:185-199 | `int NAME = V` gives `int`, ` `, NAME, `=`, V, `;`; without `=`, `int`, ` `, NAME, `;` |
| CTranslate.PrintValues | New-Compiler/Tokenization.c:200-221 | `print.int` and `print.string` write their format, the slot after next, and `);` |
| CTranslate.Includes | New-Compiler/Tokenization.c:160-167 | the two library names give `<stdio.h>\n` and `<string.h>\n`; any other include writes only `#include` |
| CTranslate.ReallocSizeof | New-Compiler/Tokenization.c:222-238 | `realloc` succeeds iff the name is non-empty, and its `sizeof` argument is the name without its last character |
| CTranslate.NonKeywordWritesNothing | New-Compiler/Tokenization.c:121-240 | a slot with no keyword writes nothing |
| CTranslate.PrintLoopContextFree | New-Compiler/Tokenization.c:144-156 | the `print` loop's entries do not depend on what was written before |
| CTranslate.CopyLoopContextFree | New-Compiler/Tokenization.c:171-183 | nor do the `C [` loop's |
| CTranslate.CopyStepContextFree | New-Compiler/Tokenization.c:171-183 | one copy step keeps the loop context-free |
| CTranslate.DispatchContextFree | New-Compiler/Tokenization.c:123-239 | nor do a slot's |
| CTranslate.MainHeaderContextFree | New-Compiler/Tokenization.c:123-130 | nor do `function main`'s |
| CTranslate.PrintTextContextFree | New-Compiler/Tokenization.c:139-159 | nor do `print`'s |
| CTranslate.IncludeContextFree | New-Compiler/Tokenization.c:160-167 | nor do `#include`'s |
| CTranslate.IntDeclContextFree | New-Compiler/Tokenization.c:185-199 | nor do `int`'s |
| CTranslate.PrintValueContextFree | New-Compiler/Tokenization.c:200-221 | nor do `print.int`'s and `print.string`'s |
| CTranslate.StringDeclContextFree | New-Compiler/Tokenization.c:206-215 | nor do `string`'s |
| CTranslate.ReallocContextFree | New-Compiler/Tokenization.c:222-239 | nor do `realloc`'s |
| CTranslate.CompileFromContextFree | New-Compiler/Tokenization.c:121-240 | the entries from slot `i` on do not depend on what was written before |
| CTranslate.CompiledBySlots | New-Compiler/Tokenization.c:121-240 | `Compile` writes slot 0's entries, then those of the rest of the table |
| CCompiler.Compiler.constructor | New-Compiler/Tokenization.c:11-14 | three distinct tables of `MAX_LINES` slots, the rows read in and every other slot empty |
| CCompiler.Compiler.Store | New-Compiler/Tokenization.c:39-40 | the token goes to slot `tokenSpot`, which moves on by one; no other slot changes |
| CCompiler.Compiler.LexChar | New-Compiler/Tokenization.c:34-57 | one character updates the stored slots and `currentToken` as the character-loop function does |
| CCompiler.Compiler.TokenizeRow | New-Compiler/Tokenization.c:30-66 | a row appends exactly its tokens after `tokenSpot` and leaves the later slots alone |
| CCompiler.Compiler.TokenizeRows | New-Compiler/Tokenization.c:25-67 | `Tokens` starts with exactly the file's tokens, and the later slots keep their contents |
| CCompiler.Compiler.TokenizeFile | New-Compiler/Tokenization.c:23-77 | `Tokens` is the file's tokens followed by its old slots, and `convertedTokens` starts with what `Compile` writes for that table |
| CCompiler.Compiler.AddConvertedToken | New-Compiler/Tokenization.c:106-110 | the token goes to slot `*location`, which moves on by exactly one; no other slot changes |
| CCompiler.Compiler.Compile | New-Compiler/Tokenization.c:112-243 | `convertedTokens` starts with exactly the compiled entries, the later slots keep their contents, and the run fails exactly when the translation reads past the table |
| CCompiler.Compiler.DispatchAt | New-Compiler/Tokenization.c:123-239 | one pass writes exactly the slot's translation |
| CCompiler.Compiler.MainHeaderAt | New-Compiler/Tokenization.c:123-130 | `function main (` writes its header |
| CCompiler.Compiler.PrintAt | New-Compiler/Tokenization.c:139-159 | `print` writes `printf("`, the quoted words and `);` |
| CCompiler.Compiler.PrintQuoted | New-Compiler/Tokenization.c:144-156 | the `print` loop writes exactly what the loop function gives |
| CCompiler.Compiler.IncludeAt | New-Compiler/Tokenization.c:160-167 | `#include` writes its header |
| CCompiler.Compiler.CBlockAt | New-Compiler/Tokenization.c:168-184 | `C [` copies the block |
| CCompiler.Compiler.CopyBlock | New-Compiler/Tokenization.c:171-183 | the `C [` loop writes exactly what the loop function gives |
| CCompiler.Compiler.IntAt | New-Compiler/Tokenization.c:185-199 | `int` writes its declaration |
| CCompiler.Compiler.PrintValueAt | New-Compiler/Tokenization.c:200-221 | `print.int` and `print.string` write their `printf` |
| CCompiler.Compiler.StringAt | New-Compiler/Tokenization.c:206-215 | `string` writes `char NAME[]`, five slots and `;` |
| CCompiler.Compiler.CopySlots | New-Compiler/Tokenization.c:212-213 | the five slots are copied in order, failing exactly where one lies past the table |
| CCompiler.Compiler.ReallocAt | New-Compiler/Tokenization.c:222-239 | `realloc` writes its `strncpy` |
| CCompiler.FilledTableIsLexed | New-Compiler/Tokenization.c:28-67 | a table filled from empty slots holds only tokens and empty slots |

## Left out

- File I/O is not modelled:
  - `Builder.cs` reads files through a map from path to lines, which is passed to `ReadFile`, `IncludeAt` and `BuildFile`. A missing file is a failed run.
  - In C, `ReadFile` (fopen/fgets) is replaced by the rows handed to `CCompiler.Compiler.constructor`.
  - Writing files is not modelled: `CreateCFile`'s `StreamWriter` (the written lines are returned) and `Finishing` (the printf of each slot, `system("gcc ...")`, `strcat` into `command`, `exit`).
- `CompileCFile`, `Cleanup`, the gcc launch, `Thread.Sleep`, `File.Move`/`Delete` and `ArgReader.cs` are process plumbing and are not modelled.
- `ErrorOpCode` and the console messages of `BuildFile`'s `catch` are not modelled. A failed run is just `None`/`false`.
- Builder.Builder.ConvertTokens: a `fuel` budget bounds how many `#include`s are followed. A file that includes itself makes the source loop forever; the model stops and fails instead.
- Builder.Builder.IncludeAt: the same budget applies.
- CCompiler.Compiler.IntAt: the `Ints[IntsDeclared] = atoi(...)` bookkeeping (Tokenization.c:16-17, 195-196, narrowed into `char`) is not modelled. `Compile` never reads `Ints`. However, `Ints` has 500 entries and `IntsDeclared` is never checked. So the 501st `int NAME = V` in a file writes past the end of `Ints`, which is undefined behaviour, and `CTranslate.IntDecl`, this method and `CCompiler.Compiler.TokenizeFile` still report `ok == true` there. For example, 501 rows `int a = 1` fit easily in the 5000-slot tables.
- CTranslate.IntDecl: succeeds however many `int` declarations came before. The overflow of `Ints` after 500 of them is not modelled (see `CCompiler.Compiler.IntAt`).
- CCompiler.Compiler.TokenizeFile: for the same reason, reports `ok == true` on files with more than 500 initialised `int` declarations.
- CCompiler.Compiler.TokenizeRows: requires that the tokens fit in `Tokens`, and each method of `Compile` requires that its output fits in `convertedTokens`. In the source an overflow writes past a global array, which is undefined.
- `MAX_LENGTH` (255 characters per row and per token) is not modelled. A slot holds a whole string, so a token longer than `currentToken`, and the `strcpy` overflow of a long fragment, are not captured. `fgets` splitting a long line is not captured either.
- CCompiler.Compiler.LexChar: `currentToken` is modelled as the pending string. The NUL bookkeeping of `memset` and the stale `currentToken[0]` write are folded into that string.
- A C read past the end of `Tokens` is modelled as a run that stops (`ok == false`). The source's behaviour there is undefined.
- The one-argument `StartsWith("//")` and `EndsWith(";")` of Builder.cs:71 and 81 compare under the current culture. They are modelled as ordinal character comparison (`Base.StartsWith`, `Base.EndsWith`, `IsComment`, `EndsInSemicolon`), so a line that differs only in characters the culture ignores, such as a soft hyphen after the `;`, is treated differently.
- CCompiler.Compiler.constructor: rows are taken without NUL characters, because a C row ends at its first NUL and `strlen` (Tokenization.c:32) stops there. A row with an embedded NUL, whose later characters the C lexer never sees, is not modelled.
- Debug printing is not modelled: the `debugMode` printfs and the commented-out `Console.WriteLine` loops.

## Findings

| source | as written | input that shows it | evidently intended | confidence | as-written member | corrected member |
|---|---|---|---|---|---|---|
| Builder.cs:81-82 | a comment line bumps the line cursor inside the character loop, which then runs on over the next line without its `;` (or past the last line) | lines `//c`, `x`: no token is stored, and `x` is lost; a comment on the last line throws | comment lines are skipped and every other line is lexed on its own | high, not executed | BuilderLexer.CommentLineLosesNextLinesLastToken | BuilderLexer.LexLinesSkipsComment |
| Builder.cs:210-211 | `Tokens.Remove(Tokens[j])` removes the first token equal to the parameter's type, anywhere in the list | `int x = 1` before `function f(int a)`: the `int` of the earlier declaration and the `)` are removed, and `int a` stays | remove the parameter's own two tokens at `j` and `j + 1` | high, not executed | BuilderConvertProperties.ParamRemovesEarlierTokens | BuilderConvertProperties.DropParamKeepsOthers |
| New-Compiler/Tokenization.c:126 | `function main (` takes `argc`/`argv` only when slot `i + 4` is `args)`, which the lexer never stores | the row `function main(args)` gives slots `function`, `main`, `(`, `args`, `)`, and the header is `int main(` `)` | `main(args)` (slots `args` and `)`) declares `int argc, char** argv` | high, not executed | CTranslate.MainWithArgs | CTranslate.MainHeaderIntendedAgrees |

The translators are modelled as the code is written. The corrected definitions stand beside them, each with its intended property proved:

- `BuilderLexer.LexLines` is the per-line lexer. `LexLinesSkipsComment` and `LexLinesAppend` are proved about it, and `ReadLinesWithoutComments` proves it equal to `ReadFile` on input without comments.
- `BuilderConvertProperties.DropParam` is the positional removal.
- `CTranslate.MainHeaderIntended` is the corrected header. `MainWithArgs` proves that it takes `argc` and `argv` on `main(args)`, and `CLexer.MainArgsRow` ties that input to the row `function main(args)`.
