# source_parser in Dafny

A model of the core of `source_parser`, a library that turns source files in several languages into JSON-like
schemas (one record per file, class and method) and normalises code into token streams for machine learning.
Here, a parsed file is a concrete syntax tree given as input: a `Node` datatype with a type, the field name its
parent holds it under, byte and row/column span, children and a "missing" flag, together with the file text as a
sequence of characters, one per byte. Every operation is written against that tree in the form the library uses.
Loops and dictionaries filled in place become methods and classes, each proved against a specification function.
Expression code becomes functions and lemmas.

The model covers these parts:

- **The normaliser** (`tree_sitter/__init__.py`):
  - leaf-token collection with end-of-statement markers, and the token-to-text layout with newlines;
  - the merge of a unary minus into a numeric literal;
  - `norm_untokenize`, with its comment policy, literal placeholders and indentation markers;
  - the `LiteralCount` frequency table.
- **Comment and token utilities** (`commentutils.py`, `utils.py`): C-style delimiter stripping, leading-comment
  and licence extraction, the worklist tokenizer and comment stripping.
- **Schema extractors** for C#, C++, Ruby, JavaScript/TypeScript, Python and Go:
  - namespace prefixes and docstring adjacency;
  - signatures and default arguments;
  - access specifiers;
  - the nested method and class records;
  - the merge of reopened Ruby classes.
- **Helpers** (`helpers.py`, `langtools/javascript.py`, `cli/crawler.py`):
  - indentation helpers and schema lookups;
  - the minified-code test on integer counts;
  - `fmt_num`, part naming and first-seen deduplication.

The tree-sitter library sits behind these modules. Its helpers, in `parsers/language_parser.py`, are not part of
this model; the `Schema` and `Tree` modules state the behaviour assumed for them:

- `nodes_are_equal` compares the type and the byte span of two nodes.
- `children_of_type` keeps, in order, the children whose type is in the given tuple. Called with a single type
  name, it keeps the children of exactly that type.
- `span_select` returns the text from the first node's start to the last node's end. By default it is padded on
  the left with as many spaces as the first node's start column. With no nodes it returns "".
- `has_correct_syntax` holds when no error or missing node is anywhere in the subtree. On a tree deeper than the
  interpreter's recursion limit it raises `RecursionError`. The C++, C# and JavaScript/TypeScript parsers catch
  that error around each call and record the node as not correct. The Python method parser
  (python_parser.py:149) has no such guard, so there the error escapes the parse (`Python.MethodMeaning`).
- The Ruby and Python schema and nested walks call the public `parse_class_node` and `parse_method_node`, which
  live in `LanguageParser`, outside this model. The model takes them to return what the language's own
  `_parse_class_node` and `_parse_method_node` return, as the JavaScript/TypeScript override does once its
  assertion on the node type holds.
- `previous_sibling` is the child just before the node in the given parent.
- `traverse_type` collects the nodes of the given types in pre-order.

Python exceptions become the `Err` case of a `Result` (`IndexError`, `ValueError`, `KeyError`,
`AttributeError`, `AssertionFailed`, ...). A method's error branch is the exception the source raises at that
point. Dictionaries that the source builds in insertion order are sequences of pairs, or maps where order cannot
be observed.

## Model

| member | source | states |
|---|---|---|
| Crawler.FmtNumRoundTrip | source_parser/cli/crawler.py:25-31 | removing the commas from `fmt_num(n)` gives back `str(n)` |
| Crawler.FmtNumGroupSizes | source_parser/cli/crawler.py:28-30 | there is at least one group; the first has one to three digits and every later one exactly three |
| Crawler.TagFirstPartMeaning | source_parser/cli/crawler.py:160-162 | the tag is inserted just before the first ".", or at the end when there is none |
| Crawler.AddPartToNameMeaning | source_parser/cli/crawler.py:156-162 | a missing or zero part leaves the name unchanged; any other part puts "-part-{part}" before the first "." |
| Crawler.FirstDot | source_parser/cli/crawler.py:160 | the position of the first ".", with no "." before it, or the name's length |
| Crawler.Deduplicate.constructor | source_parser/cli/crawler.py:97-99 | starts with no hash seen and no first copies |
| Crawler.Deduplicate.Process | source_parser/cli/crawler.py:101-121 | the new state is the fold of every non-skipped observer's results; each such list becomes its first-seen results; the repeats are added to `duplicate_items`; the skipped keys are left alone |
| Crawler.Deduplicate.ProcessGroup | source_parser/cli/crawler.py:105-120 | one observer's loop: the new state is the fold over its results, and it returns the kept results and the count of repeats |
| Crawler.Deduplicate.Visit | source_parser/cli/crawler.py:108-118 | a result is new exactly when its hash was not seen; the state takes one step |
| Crawler.Deduplicate.ReportDuplicates | source_parser/cli/crawler.py:123-130 | one entry per seen hash, in first-seen order, with its count and the url and path of its first copy |
| Crawler.FoldAppend | source_parser/cli/crawler.py:104-118 | processing `a + b` is processing `a` and then `b`: state, kept results and repeat count |
| Crawler.GroupsFlatten | source_parser/cli/crawler.py:102-120 | processing observer by observer is processing the concatenation of their results |
| Crawler.KeptPlusRepeats | source_parser/cli/crawler.py:109-118 | every result is either kept or counted as a repeat |
| Crawler.FoldCounts | source_parser/cli/crawler.py:109-117 | a hash is seen after the fold iff it was seen before or occurs in the results; its count grows by its number of occurrences; a recorded first copy never changes |
| Crawler.FoldOrder | source_parser/cli/crawler.py:113-118 | the first-seen order gains exactly the hashes of the kept results |
| Crawler.KeptIsFirst | source_parser/cli/crawler.py:109-118 | a kept result is the first occurrence of its hash, and it is the first copy recorded for it |
| Crawler.FirstIsKept | source_parser/cli/crawler.py:113-118 | a result whose hash was not seen before it is kept |
| Crawler.ReportLists | source_parser/cli/crawler.py:123-130 | the report has one entry per seen hash, in order, with that hash's count and first copy |
| Helpers.GetLeadingWhitespace | source_parser/helpers.py:142-144 | the maximal prefix of whitespace characters |
| Helpers.LeftAdjustUnindented | source_parser/helpers.py:182-184 | a text without leading whitespace is returned unchanged |
| Helpers.LeftAdjustLines | source_parser/helpers.py:182-187 | the result's lines are the input's lines, each with the first line's whitespace count removed |
| Helpers.ReindentMeaning | source_parser/helpers.py:147-152 | without leading whitespace in the original, the new function is unchanged; otherwise each line of it gets the original's leading whitespace |
| Helpers.IndentOfBody | source_parser/helpers.py:167-172 | the leading whitespace of the first non-comment line that has some, which is non-empty and all whitespace |
| Helpers.IndentFromMethods | source_parser/helpers.py:160-172 | the indent found among top-level methods is non-empty whitespace; a method with no lines raises `IndexError` |
| Helpers.FirstClassMethod | source_parser/helpers.py:157-159 | the first method of the first class that has one, or none exactly when no class has methods |
| Helpers.GetIndentStrMeaning | source_parser/helpers.py:155-173 | the unit is whitespace; it is empty only when it comes from a class method; "    " when no method shows one; it fails only on a top-level method with an empty text |
| Helpers.ClassDotMethnameSplits | source_parser/helpers.py:120-126 | the canonical name splits at its last "." back into the class and method names |
| Helpers.YieldSchemMeths | source_parser/helpers.py:91-100 | the top-level methods come first, unchanged |
| Helpers.ClassMethodsComplete | source_parser/helpers.py:97-100 | every class method is yielded, tagged with its class name |
| Helpers.ClassMethodsSound | source_parser/helpers.py:97-100 | every yielded class method is a method of some class, tagged with that class's name |
| Helpers.FirstWhere | source_parser/helpers.py:104-107 | the index of the first match, with no match before it, or none when nothing matches |
| Helpers.GetSchemMethByLineNum | source_parser/helpers.py:103-107 | the first yielded method whose rows cover the line, or none |
| Helpers.ByLineMeaning | source_parser/helpers.py:103-107 | the found method covers the line, and no method yielded before it does; none only when no method covers it |
| Helpers.NameMatchesMeaning | source_parser/helpers.py:132-138 | the two branches amount to the same name with the same class name, or with neither having one |
| Helpers.GetSchemMethByName | source_parser/helpers.py:129-139 | the first yielded method that matches the name and class |
| Helpers.ByNameTopLevel | source_parser/helpers.py:134-135 | without a class name, the first top-level method of that name is found |
| Helpers.ByNameInClass | source_parser/helpers.py:136-138 | with a class name, a top-level method is never returned |
| Helpers.SpanSelect | source_parser/helpers.py:84-88 | the text between the record's start and end byte, "" for an empty or inverted span |
| Helpers.FirstSame | source_parser/helpers.py:48-51 | the first method with the same text, or none |
| Helpers.FirstClassWith | source_parser/helpers.py:43-47 | the first class holding a method with the same text, or none |
| Helpers.ReplaceSchemMethod | source_parser/helpers.py:37-52 | the nested search loops compute `Replaced` |
| Helpers.ReplacedFails | source_parser/helpers.py:43-52 | the replacement fails (the `assert False`) exactly when no method, in a class or at the top level, has the target's text |
| Helpers.ReplacedChangesOne | source_parser/helpers.py:42-51 | exactly one record changes, the first match in search order; every other record and the shape of the file are kept |
| Helpers.Passing | source_parser/helpers.py:71-73 | the kept generations are no more than the inputs |
| Helpers.FilterFunctions | source_parser/helpers.py:69-81 | the loop computes the first-seen deduplication of the generations that pass the syntax test |
| Helpers.PassingSound | source_parser/helpers.py:71-73 | a kept generation is an input and passes the syntax test |
| Helpers.PassingComplete | source_parser/helpers.py:71-73 | every input that passes the syntax test is kept |
| Helpers.DedupeNorms | source_parser/helpers.py:74-81 | the result covers exactly the normalised forms of the input |
| Helpers.DedupeDistinct | source_parser/helpers.py:76-80 | no two kept generations share a normalised form |
| Helpers.DedupeFirst | source_parser/helpers.py:76-80 | each kept generation is the first input with its normalised form |
| JavascriptTools.LessMeansRealLess | source_parser/langtools/javascript.py:84-87 | the cross-multiplied comparison of two fractions is the real-number comparison |
| JavascriptTools.IndentedCountZero | source_parser/langtools/javascript.py:108-111 | no line is counted exactly when no line is indented |
| JavascriptTools.IndentedCountAll | source_parser/langtools/javascript.py:108-111 | every line is counted exactly when every line is indented |
| JavascriptTools.IndentedFraction | source_parser/langtools/javascript.py:106-114 | a fraction with a positive denominator that is at most 1 (0 when there are no lines) |
| JavascriptTools.FractionOfIndentedLines | source_parser/langtools/javascript.py:92-114 | the counting loop computes `IndentedFraction` |
| JavascriptTools.FollowedBySpaceTokenize | source_parser/langtools/javascript.py:157-160 | the one-byte whitespace test holds exactly when `tokenize` would extend the token over whitespace |
| JavascriptTools.SpacedAtMostIncluded | source_parser/langtools/javascript.py:155-160 | the spaced operators are at most the operators |
| JavascriptTools.SpacedAllIncluded | source_parser/langtools/javascript.py:155-160 | the two counts agree exactly when every operator is followed by whitespace |
| JavascriptTools.SpacedFraction | source_parser/langtools/javascript.py:140-165 | a fraction at most 1 over `max(included, 1)` |
| JavascriptTools.FractionOfTokensWithWhitespace | source_parser/langtools/javascript.py:117-165 | the worklist loop computes `SpacedFraction` over the atomic leaves of the tree, with the compound-literal tuple as written |
| JavascriptTools.IsMinified | source_parser/langtools/javascript.py:59-89 | minified iff the indented fraction or the operator-whitespace fraction is below its cut-off |
| JavascriptTools.UnindentedIsMinified | source_parser/langtools/javascript.py:84-88 | a file with no indented line is minified under any positive indentation cut-off |
| JavascriptTools.NoOperatorsIsMinified | source_parser/langtools/javascript.py:84-88 | a file without operators is minified under any positive whitespace cut-off |
| JavascriptTools.LaidOutIsNotMinified | source_parser/langtools/javascript.py:84-89 | a fully indented file whose operators, at least one, are all spaced is not minified under cut-offs of at most 1 |
| GoParser.MatchFromSpan | source_parser/parsers/go_parser.py:19-22 | the text between the node's start and end byte, the intended reading of `startIndex` and `endIndex` |
| GoParser.GetFunctionMetadata | source_parser/parsers/go_parser.py:59-75 | for a function: identifier child 1, parameters child 2; for a method: identifier child 2, parameters child 1 + " " + child 3; "" for other nodes; a missing child is `IndexError` |
| GoParser.TrailingComments | source_parser/parsers/go_parser.py:32-55 | what the comment buffer holds: comments only, preceded by a non-comment or the start |
| GoParser.TrailingCommentsSuffix | source_parser/parsers/go_parser.py:32-55 | the buffer is exactly the last nodes seen |
| GoParser.GetDefinition | source_parser/parsers/go_parser.py:30-56 | the loop with its buffer computes `Definitions` |
| GoParser.DefinitionsStep | source_parser/parsers/go_parser.py:34-55 | one child: a comment extends the buffer; a declaration adds a record and empties it; anything else empties it |
| GoParser.DefinitionsPrefixFails | source_parser/parsers/go_parser.py:41 | once a prefix fails, the whole scan fails the same way |
| GoParser.DefinitionsPrefix | source_parser/parsers/go_parser.py:33-56 | the scan of a prefix yields a prefix of the records |
| GoParser.DefinitionsLast | source_parser/parsers/go_parser.py:36-52 | the last child decides failure, given the scan of the rest |
| GoParser.DefinitionsFail | source_parser/parsers/go_parser.py:41-75 | the scan fails exactly when some declaration lacks the children its metadata reads, and then with `IndexError` |
| GoParser.DefinitionsOnePerDecl | source_parser/parsers/go_parser.py:33-52 | one record per function or method declaration, in order, with its type, text and points |
| GoParser.DocstringIsPrecedingComments | source_parser/parsers/go_parser.py:34-55 | a declaration's docstring is the "\n"-join of the comments just above it, with no other node between |
| GoParser.OffsetAttribute | source_parser/parsers/go_parser.py:19-22 | a node has the offset attributes `start_byte` and `end_byte`; reading any other name raises `AttributeError` |
| GoParser.MakeAsWrittenFails | source_parser/parsers/go_parser.py:36-52 | as written, every declaration's record raises: `IndexError` when the child read first is missing, `AttributeError` otherwise |
| GoParser.AsWrittenFailsOnDecl | source_parser/parsers/go_parser.py:30-56 | as written, `get_definition` succeeds exactly on a file without a method or function declaration, and then returns no records |
| GoParser.DeclarationAsWritten | source_parser/parsers/go_parser.py:19-22 | as written, a file holding one well-formed function declaration raises `AttributeError` |
| GoParser.ByBytesIsDefinitions | source_parser/parsers/go_parser.py:19-75 | reading the offsets by byte, the scan with its attribute reads is `Definitions` |
| GoParser.DeclarationIntended | source_parser/parsers/go_parser.py:30-75 | read by byte offsets, the same file gives one record with the declaration's identifier, parameters and text and an empty docstring |
| CommentUtils.FirstSuffixOf | source_parser/parsers/commentutils.py:22-25 | "" or a delimiter the line ends with |
| CommentUtils.FirstPrefixOf | source_parser/parsers/commentutils.py:26-37 | "" or a delimiter the line starts with |
| CommentUtils.FirstSuffixOfIsFirst | source_parser/parsers/commentutils.py:22-25 | the delimiter chosen is the first of the list that matches, and "" only when none does |
| CommentUtils.FirstPrefixOfIsFirst | source_parser/parsers/commentutils.py:26-37 | the delimiter chosen is the first of the list that matches, and "" only when none does |
| CommentUtils.DropTrailingFirst | source_parser/parsers/commentutils.py:22-25 | the if-chain cuts exactly the first matching trailing delimiter, " */" before "*/" |
| CommentUtils.DropLeadingFirst | source_parser/parsers/commentutils.py:26-37 | the if-chain cuts exactly the first matching leading delimiter, in the order "* ", "/**", "/*", "///", "//", "*" |
| CommentUtils.DelimiterParts | source_parser/parsers/commentutils.py:22-37 | a stripped line is its cut leading delimiter, the cleaned rest and its cut trailing delimiter |
| CommentUtils.CleanLineParts | source_parser/parsers/commentutils.py:21-37 | a cleaned line is the left-stripped line with at most one leading and one trailing delimiter removed, each the first that matches |
| CommentUtils.CleanLinesAt | source_parser/parsers/commentutils.py:20-38 | output line k is input line k cleaned |
| CommentUtils.StripCStyleCommentDelimiters | source_parser/parsers/commentutils.py:17-39 | every line of `splitlines()` cleaned, joined by "\n" |
| CommentUtils.CleanEachLine | source_parser/parsers/commentutils.py:20-38 | the loop appends each cleaned line, in order |
| CommentUtils.StripLineDelimiters | source_parser/parsers/commentutils.py:21-37 | the loop body computes the cleaned line |
| CommentUtils.StripLeadingDelimiter | source_parser/parsers/commentutils.py:26-37 | the leading if-chain removes the first matching leading delimiter |
| CommentUtils.CleanLineInside | source_parser/parsers/commentutils.py:21-37 | a cleaned line is a piece of its line, so it holds no line break when its line holds none |
| CommentUtils.StripKeepsLines | source_parser/parsers/commentutils.py:17-39 | one output line per input line: splitting the result at "\n" gives back exactly the cleaned lines |
| CommentUtils.OpeningLine | source_parser/parsers/commentutils.py:28-29 | an opening "/**" line that does not close loses its first three characters |
| CommentUtils.ClosingLine | source_parser/parsers/commentutils.py:21-25 | a line of indentation and "*/" becomes empty |
| CommentUtils.TwoLineDocComment | source_parser/parsers/commentutils.py:17-39 | "/**" + text on one line and a closing "*/" line become the text and one line feed, so after `strip()` "/** This is the first class\n */" is "This is the first class" |
| CommentUtils.SkipWhile | source_parser/parsers/commentutils.py:9-14 | the end of the run of characters satisfying the test from a position: all of the run satisfies it and the character after it does not, as `\n*`, `\*+` and `[ \t]*` take it |
| CommentUtils.CommentLines | source_parser/parsers/commentutils.py:9-14 | the end of the complete lines that start, after blanks, with the comment mark |
| CommentUtils.CStyleEnd | source_parser/parsers/commentutils.py:11-13 | the end of the C-style match, within the text |
| CommentUtils.MatchEnd | source_parser/parsers/commentutils.py:65-67 | the end of a regex's match at the start of the text, within the text |
| CommentUtils.CStyleMatch | source_parser/parsers/commentutils.py:11-13 | a C-style match covers "/*", text, "*/" and then only line feeds, and it closes at the first "*/" after the opening stars |
| CommentUtils.LeadingComment | source_parser/parsers/commentutils.py:64-70 | a prefix of the text |
| CommentUtils.LeadingCommentFirst | source_parser/parsers/commentutils.py:64-70 | "" exactly when no regex matches non-emptily; otherwise the prefix matched by the first one that does |
| CommentUtils.GetLeadingComment | source_parser/parsers/commentutils.py:42-70 | the loop with its early return computes `LeadingComment` |
| CommentUtils.StripLicenseSplits | source_parser/parsers/commentutils.py:99-102 | when the leading comment mentions "license" or "copyright" in any case, it is split off the front and licence + rest is the text; otherwise the text comes back whole with "" |
| SourceUtils.WhitespaceEnd | source_parser/utils.py:75-80 | the end of the run of whitespace bytes from `finish`: all of it is whitespace, and the byte after it is not |
| SourceUtils.TokenTexts | source_parser/utils.py:74-86 | one string per token node |
| SourceUtils.TokenTextsAt | source_parser/utils.py:74-86 | string k is token k's text, indented only when it is the first |
| SourceUtils.NodeKinds | source_parser/utils.py:87 | one type per token node |
| SourceUtils.Tokenize | source_parser/utils.py:41-91 | the worklist loop yields the strings and the types of the token nodes of the tree, in tree order, with the compound-literal tuple as written |
| SourceUtils.TokenString | source_parser/utils.py:74-84 | the string of one token node |
| SourceUtils.SkipWhitespace | source_parser/utils.py:77-80 | the inner walk right stops at `WhitespaceEnd` |
| SourceUtils.TokenizeMeaning | source_parser/utils.py:69-87 | the k-th string is the k-th token node's bytes; when asked, exactly the whitespace after them follows; only the first is indented by its start column; types and strings have equal length |
| SourceUtils.TokenizeInOrder | source_parser/utils.py:67-89 | in a tree whose spans nest in order, the tokens come in source order |
| SourceUtils.Pieces | source_parser/utils.py:115-120 | one piece per token when no comment lacks a line feed |
| SourceUtils.PiecesPrefixFails | source_parser/utils.py:115-118 | once a prefix fails, the whole stream fails |
| SourceUtils.StripComments | source_parser/utils.py:94-121 | computes `Uncommented` of the tree |
| SourceUtils.JoinCommentFree | source_parser/utils.py:114-121 | the loop over the token stream computes `CommentFree` |
| SourceUtils.PiecesFail | source_parser/utils.py:116-117 | `strip_comments` raises (`str.index`) exactly when some comment token holds no line feed |
| SourceUtils.PiecesAt | source_parser/utils.py:115-120 | each piece is its token, except that a comment is cut down to its suffix from the first line feed |
| SourceUtils.CommentFreeKeepsLines | source_parser/utils.py:115-121 | removing comments keeps every line feed |
| Leaves.ForestTokensAppend | source_parser/utils.py:67-89 | the token nodes of a concatenation of forests are those of each forest, in turn |
| Leaves.WorklistStep | source_parser/utils.py:67-89 | one pop: a token node is emitted and dropped, any other node is replaced by its children in front; the token nodes still to come are unchanged and the work shrinks |
| Leaves.WalkEmit | source_parser/utils.py:68-88 | emitting a popped token node keeps the walk on track and shrinks the work |
| Leaves.WalkDescend | source_parser/utils.py:89 | replacing an inner node by its children keeps the walk on track and shrinks the work |
| Leaves.WalkDone | source_parser/utils.py:67 | when the worklist is empty, every token node of the tree has been emitted, in order |
| Leaves.TokensInOrder | source_parser/utils.py:67-89 | in a tree whose spans nest in order, the token nodes come in source order, within the node's span |
| Leaves.RootTokensInOrder | source_parser/utils.py:66-89 | the token nodes of an ordered tree's children come in source order |
| Leaves.ConcatenatedAsWritten | source_parser/utils.py:61-73 | with the tuple as written, a `concatenated_string` counts as one atomic token |
| Leaves.ConcatenatedIntended | source_parser/utils.py:61-73 | with the intended three-element tuple, its parts are visited one by one |
| Tree.SyntaxPassMeaning | source_parser/parsers/jsts_parser.py:563-566 | `syntax_pass` holds exactly when the subtree has no error or missing node and is within the recursion limit |
| Tree.CheckSyntaxTrue | source_parser/parsers/jsts_parser.py:563-566 | the depth-bounded check succeeds with true exactly on well-formed trees of bounded depth |
| Tokens.NodeTokens | source_parser/tree_sitter/__init__.py:134-147 | `preserve_statement` without a language fails the assertion; a childless or atomic string/char node yields exactly one entry, spanning its children for an atomic node |
| Tokens.ChildrenTokens | source_parser/tree_sitter/__init__.py:148-154 | the entries of the first children, starting with a positioned entry |
| Tokens.AfterChild | source_parser/tree_sitter/__init__.py:148-154 | one more child's entries are appended, keeping the first entry |
| Tokens.MarkAfter | source_parser/tree_sitter/__init__.py:150-154 | the marker step keeps the entries it was given in front |
| Tokens.ChildrenTokensErr | source_parser/tree_sitter/__init__.py:148-149 | once a child raises, the whole loop raises the same error |
| Tokens.NodeTokensShape | source_parser/tree_sitter/__init__.py:115-154 | every marker is typed "endofstatement" with no position, and the first entry is a token |
| Tokens.NoAdjacentMarkersEmitted | source_parser/tree_sitter/__init__.py:150-154 | with `preserve_statement`, two markers are never adjacent |
| Tokens.WithoutMarkersConcat | source_parser/tree_sitter/__init__.py:150-154 | taking the markers out of a concatenation takes them out of each part |
| Tokens.PlainTokensHaveNoMarkers | source_parser/tree_sitter/__init__.py:134-149 | without `preserve_statement`, the call cannot fail and emits no marker |
| Tokens.MarkersOnlyInserted | source_parser/tree_sitter/__init__.py:148-154 | dropping the markers from the `preserve_statement` stream gives the plain stream |
| Tokens.TokenStream.constructor | source_parser/tree_sitter/__init__.py:177-178 | the two accumulators start empty and in lockstep |
| Tokens.TokenStream.GetTokens | source_parser/tree_sitter/__init__.py:115-154 | appends `NodeTokens` to the positions and the types in lockstep, or reports its error |
| Tokens.TokenStream.GetChildrenTokens | source_parser/tree_sitter/__init__.py:148-154 | the loop over the children appends exactly `ChildrenTokens` |
| Tokens.TokenStream.GetChildTokens | source_parser/tree_sitter/__init__.py:149-154 | one pass of the loop: the child's entries and then the marker step |
| Tokens.TokenStream.MarkStatement | source_parser/tree_sitter/__init__.py:150-154 | a marker is appended after a statement child unless the last type already is one |
| Tokens.TokenStream.HandleNegativeCase | source_parser/tree_sitter/__init__.py:561-577 | a '-' at the end raises `IndexError`; the merge happens iff the next type is numeric and the type before is an operator, ",", "(", "{" or "["; then '-' keeps its start, takes the literal's end and type, and the lists shrink by one with every other entry in order; otherwise nothing changes |
| Tokens.TokenStream.RemoveAt | source_parser/tree_sitter/__init__.py:573-577 | the left shift and `pop()` remove entry k and keep all others in order |
| Tokens.TokenStream.HandleNegativeNumber | source_parser/tree_sitter/__init__.py:553-558 | the scan over every '-' leaves exactly the lists `NegativeNumbers` computes, or its error |
| Tokens.MergeAt | source_parser/tree_sitter/__init__.py:570-577 | one shorter lists: the merged entry spans both tokens and takes the literal's type; entries before stay and entries after shift left by one |
| Tokens.MergeAtLockstep | source_parser/tree_sitter/__init__.py:570-577 | a merge keeps the two lists in lockstep |
| Tokens.NegativeNumbers | source_parser/tree_sitter/__init__.py:553-558 | the lists stay in lockstep and never grow |
| Tokens.NoMinusUnchanged | source_parser/tree_sitter/__init__.py:555-558 | a stream with no '-' entry is left as it is |
| FileTokens.FindLast | source_parser/tree_sitter/__init__.py:243 | the last occurrence of a pattern, which is where a greedy `.*` stops |
| FileTokens.BeforeLineComment | source_parser/tree_sitter/__init__.py:242 | `split("//")[0]`: a prefix with no "//" in it |
| FileTokens.BlockCommentGone | source_parser/tree_sitter/__init__.py:242-243 | after the line comment is cut off, removing the greedy block comment leaves none behind |
| FileTokens.PreprocText | source_parser/tree_sitter/__init__.py:241-244 | the text of a `preproc_arg` token holds no block comment |
| FileTokens.TokenText | source_parser/tree_sitter/__init__.py:234-256 | a token is read from its rows; it fails exactly when a row it reads is missing; a one-row token is the column slice of its row |
| FileTokens.StepEntryMeaning | source_parser/tree_sitter/__init__.py:220-256 | an end-of-statement marker becomes "<endofstatement>" with no position; any other entry without a position raises `TypeError`; a token appends its position, text and type, after a "\n"/new_line entry when `keep_newline` holds and its start row differs from the previous end row |
| FileTokens.FoldErr | source_parser/tree_sitter/__init__.py:220-256 | once an entry raises, the whole run raises the same error |
| FileTokens.FileTokens | source_parser/tree_sitter/__init__.py:186-264 | positions, texts and types stay aligned |
| FileTokens.FileTokensErr | source_parser/tree_sitter/__init__.py:220-256 | an entry that raises makes the whole call raise the same error |
| FileTokens.FileTokenizer | source_parser/tree_sitter/__init__.py:186-264 | the loop computes `FileTokens`, or its error |
| FileTokens.FoldTypesStep | source_parser/tree_sitter/__init__.py:229-256 | each entry appends its type, possibly after a new_line |
| FileTokens.FoldWithoutKeep | source_parser/tree_sitter/__init__.py:229 | without `keep_newline` the types come out as they went in |
| FileTokens.FileTokensTypes | source_parser/tree_sitter/__init__.py:186-264 | every input type is kept in order and only new_line entries are added |
| FileTokens.FileTokensTrailingNewLine | source_parser/tree_sitter/__init__.py:259-262 | a blank last source line ends the output with "\n" |
| Untokenize.LowerPrefix | source_parser/tree_sitter/__init__.py:667-670 | the longest run of lower-case letters at the start: a prefix, all lower case, and not followed by another one |
| Untokenize.StringQualifier | source_parser/tree_sitter/__init__.py:700-705 | the qualifier `^([a-z]+\|@)` matches is a prefix of the token |
| Untokenize.StripQuotes | source_parser/tree_sitter/__init__.py:672-715 | the first quote option the token starts with opens it; it also closes it only when the token ends with it; with no matching option nothing is stripped |
| Untokenize.RenderComment | source_parser/tree_sitter/__init__.py:647-653 | a comment becomes "#<COMMENT>" when normalized, stays when kept, and is removed leaving " " only if it started with a space |
| Untokenize.RenderPlain | source_parser/tree_sitter/__init__.py:655-735 | a keyword that is not a comment is never replaced |
| Untokenize.RenderDoubleQuoted | source_parser/tree_sitter/__init__.py:690-727 | a string literal `qual"v"` renders as its qualifier and `<STR_LIT:v>` when `v` is a frequent literal, else `<STR_LIT>` |
| Untokenize.QualifierOf | source_parser/tree_sitter/__init__.py:691-705 | a lower-case qualifier in front of a double-quoted body is what the qualifier regex finds, and such a token is no raw C++ string |
| Untokenize.StripDoubleQuotes | source_parser/tree_sitter/__init__.py:697-715 | a `"v"` token loses exactly its two double quotes |
| Untokenize.RangeCountBounds | source_parser/tree_sitter/__init__.py:753-757 | `range(start, stop, step)` runs the ceiling of `(stop - start) / step` times, and never when `start >= stop` |
| Untokenize.Place | source_parser/tree_sitter/__init__.py:737-766 | the layout stays well formed |
| Untokenize.PlaceMeaning | source_parser/tree_sitter/__init__.py:737-766 | the text only grows and the previous positions move to the token; a first token or one that starts where the previous ended is appended directly; one further along the row after one space unless the text ends in one; without `indent` a new row gets a line feed and one space per column; as written the call fails exactly on a same-row gap with nothing emitted |
| Untokenize.PlaceIndent | source_parser/tree_sitter/__init__.py:744-760 | on a new row with `indent`, the first indent fixes `indent_size`, a deeper token gets one `<INDENT>` per started step unless it is more than two steps deeper (then none and the level is not moved), a shallower one one `<DEDENT>` per started step |
| Untokenize.EntryStepMeaning | source_parser/tree_sitter/__init__.py:637-646 | a line-feed entry appends "\n", an end-of-statement marker its tag, a positionless token raises `IndexError`; the text only grows; in the corrected reading nothing else raises |
| Untokenize.EntryStepAgrees | source_parser/tree_sitter/__init__.py:637-766 | where the as-written step succeeds the corrected one gives the same layout |
| Untokenize.FoldStep | source_parser/tree_sitter/__init__.py:637 | the loop after `i + 1` triples is one more step after `i` |
| Untokenize.FoldErr | source_parser/tree_sitter/__init__.py:637 | once a triple raises, the loop raises the same error |
| Untokenize.Repeated | source_parser/tree_sitter/__init__.py:753-764 | a `for _ in range(...)` loop appending a mark appends it `RangeCount` times |
| Untokenize.NormUntokenize | source_parser/tree_sitter/__init__.py:584-768 | the result, or the raised error, of the as-written loop followed by the left strip and the collapse of whitespace before line feeds |
| Untokenize.LayOut | source_parser/tree_sitter/__init__.py:632-766 | the loop over `zip(poses, tokens, types)` stops at the shortest list and computes `Fold` as written, stopping at the first raised error |
| Untokenize.UntokenizeEntry | source_parser/tree_sitter/__init__.py:638-766 | the body of the loop computes `EntryStep` as written |
| Untokenize.PlaceToken | source_parser/tree_sitter/__init__.py:737-766 | the layout branches compute `Place` as written: a gap on the same row with nothing emitted yet raises `IndexError` |
| Untokenize.CorrectedNeverFails | source_parser/tree_sitter/__init__.py:637-766 | with the corrected same-row check, the loop fails only on a token without a position |
| Untokenize.AsWrittenAgrees | source_parser/tree_sitter/__init__.py:737-742 | where the as-written loop succeeds, the corrected loop yields the same layout |
| Untokenize.GapAsWritten | source_parser/tree_sitter/__init__.py:737-742 | a removed leading comment followed by a token further along the same row makes `code_string[-1]` raise |
| Untokenize.GapCorrected | source_parser/tree_sitter/__init__.py:737-742 | with the corrected check the same input yields "x" |
| Untokenize.HexRoundTrip | source_parser/tree_sitter/__init__.py:527 | upper-case hexadecimal reads back as the number it wrote |
| Untokenize.ZFill | source_parser/tree_sitter/__init__.py:527 | `zfill(w)` pads to width `w` and keeps the value |
| Untokenize.ParseHexZeros | source_parser/tree_sitter/__init__.py:527 | leading zeros do not change a hexadecimal value |
| Untokenize.Escape | source_parser/tree_sitter/__init__.py:527 | a character's code is "U+" followed by hexadecimal digits worth its code point, at least six characters long |
| Untokenize.FirstOccurrencesSame | source_parser/tree_sitter/__init__.py:526-528 | the dict's keys are exactly the characters of the list |
| Untokenize.FirstOccurrencesDistinct | source_parser/tree_sitter/__init__.py:526-528 | no key occurs twice |
| Untokenize.NumTypesHaveNoMarker | source_parser/tree_sitter/__init__.py:535 | no language's number types include the end-of-statement marker type, so a marker is never merged into a negative number |
| Untokenize.EntriesLockstep | source_parser/tree_sitter/__init__.py:534-535 | the two lists `get_tokens` fills pair up entry by entry |
| Untokenize.Normalize | source_parser/tree_sitter/__init__.py:469-551 | `normalize` computes `NormalizeSpec`: the pipeline of `get_tokens`, `handle_negative_number`, `_file_tokenizer` and `norm_untokenize`, with "" whenever one of them raises, the `code_string[-1]` read on an empty text included |
| Untokenize.NormalizeSpecUnfold | source_parser/tree_sitter/__init__.py:529-550 | when tokenizing succeeds for a known language, the result is the normalization of the collected entries |
| Untokenize.NormalizeStream | source_parser/tree_sitter/__init__.py:535-550 | the steps after `get_tokens`, run on the collected lists, compute `NormalizeEntries` |
| Untokenize.NormalizeClean | source_parser/tree_sitter/__init__.py:767-768 | the normalized text never starts with whitespace and no line of it ends in whitespace |
| Untokenize.NormalizeUnknownLanguage | source_parser/tree_sitter/__init__.py:535-550 | a language without a literal table normalizes to "" (its `KeyError` is caught) |
| LiteralCounter.Get | source_parser/tree_sitter/__init__.py:411 | a `Counter` reads 0 for a missing key |
| LiteralCounter.Add | source_parser/tree_sitter/__init__.py:411-434 | `c[k] += n` adds `n` to key `k` only, keeps the existing keys in place, appends a new key at the end, and keeps the keys distinct |
| LiteralCounter.UpdateWith | source_parser/tree_sitter/__init__.py:451 | `Counter.update` keeps the existing keys in place, adds the new ones and keeps the keys distinct |
| LiteralCounter.UpdateAdds | source_parser/tree_sitter/__init__.py:451 | `Counter.update` adds the two counts of every key |
| LiteralCounter.SortByCountSpec | source_parser/tree_sitter/__init__.py:359-364 | the stable sort behind `most_common` orders by decreasing count, only permutes the entries and keeps the key set |
| LiteralCounter.MostCommon | source_parser/tree_sitter/__init__.py:359-364 | `most_common(n)` returns `min(n, len)` entries, none for `n <= 0`, a prefix of the sorted entries |
| LiteralCounter.MostCommonTop | source_parser/tree_sitter/__init__.py:359-364 | the returned and the left-out entries together are all entries; no entry left out has a larger count than one returned; the returned ones come in decreasing count |
| LiteralCounter.PruneKeepsCounts | source_parser/tree_sitter/__init__.py:453-466 | `prune(k)` keeps at most `k` entries, each with its old count, no key twice |
| LiteralCounter.PruneKeepsSingletons | source_parser/tree_sitter/__init__.py:453-466 | when a counter has at most `k` keys, `prune(k)` keeps every count-1 entry with its count, so the docstring's promise to drop literals seen once is not kept |
| LiteralCounter.SetKey | source_parser/tree_sitter/__init__.py:466 | `c[k] = v` appends a new key at the end |
| LiteralCounter.UpdateAll | source_parser/tree_sitter/__init__.py:449-451 | updating with any list of `lits` dicts keeps every counter's keys distinct |
| LiteralCounter.LineEnd | source_parser/tree_sitter/__init__.py:395-398 | where `.*` stops: the first line feed at or after the position, or the end |
| LiteralCounter.LastClose | source_parser/tree_sitter/__init__.py:395-398 | the greedy `(.*)(?=Q)` ends at the last occurrence of the quote in reach, and finds none only when there is none |
| LiteralCounter.SearchFrom | source_parser/tree_sitter/__init__.py:414 | a `re.search` match of a quote pattern never spans a line feed |
| LiteralCounter.SearchQuoted | source_parser/tree_sitter/__init__.py:394-414 | between two copies of a quote with no line break, the quote's pattern finds exactly the text between them |
| LiteralCounter.DoubleQuotedValue | source_parser/tree_sitter/__init__.py:412-416 | the quote loop reads `v` out of a `"v"` literal with no quote or line break inside |
| LiteralCounter.EscapeSpaceComma | source_parser/tree_sitter/__init__.py:418-428 | after the two replacements no space or comma is left |
| LiteralCounter.CountStep | source_parser/tree_sitter/__init__.py:409-434 | one `(token, tp)` pair keeps the counters well formed |
| LiteralCounter.NumCountsOccurrences | source_parser/tree_sitter/__init__.py:410-411 | each number literal's count is the number of times it occurs with a number type |
| LiteralCounter.CountedShapes | source_parser/tree_sitter/__init__.py:417-434 | counted string and char values carry no space or comma; counted regex values are 1 to 24 characters long and hold no space |
| LiteralCounter.CountSpecEmpty | source_parser/tree_sitter/__init__.py:392-393 | code with fewer than two line breaks once blank runs collapse counts nothing |
| LiteralCounter.PlainTokensOk | source_parser/tree_sitter/__init__.py:405 | `get_tokens` without `preserve_statement` never raises |
| LiteralCounter.LiteralCount.constructor | source_parser/tree_sitter/__init__.py:271-300 | the four counters start empty and the settings are stored |
| LiteralCounter.LiteralCount.CountLits | source_parser/tree_sitter/__init__.py:372-438 | `count_lits` computes `CountSpec`: nothing for short code or too many tokens, otherwise the counting loop, and nothing on a raised error |
| LiteralCounter.LiteralCount.Update | source_parser/tree_sitter/__init__.py:440-451 | the counters become `UpdateAll` of the old ones, keys still distinct |
| LiteralCounter.LiteralCount.Prune | source_parser/tree_sitter/__init__.py:453-466 | each counter becomes its `most_common(keep_num)`, keys still distinct |
| LiteralCounter.LiteralCount.GetTopLits | source_parser/tree_sitter/__init__.py:334-370 | the four keys, each mapped to the keys of that counter's `most_common` in order |
| LiteralCounter.CountCollected | source_parser/tree_sitter/__init__.py:406-436 | the steps after `get_tokens` compute `CountEntries` |
| LiteralCounter.CountTokens | source_parser/tree_sitter/__init__.py:409-434 | the loop over `zip(tokens, types)` computes `CountFold` |
| LiteralCounter.PruneCounter | source_parser/tree_sitter/__init__.py:463-466 | `most_common`, `clear` and writing every kept entry back leave exactly `most_common(keep)` |
| LiteralCounter.Rebuild | source_parser/tree_sitter/__init__.py:464-466 | writing distinct-keyed entries one by one into an empty dict gives them back in order |
| Schema.Select | source_parser/parsers/csharp_parser.py:320 | `select` gives one text per node, in order, each the span of that node alone |
| Schema.SelectAt | source_parser/parsers/csharp_parser.py:320 | entry `i` of `select` is the span of node `i` |
| Schema.SelectHas | source_parser/parsers/csharp_parser.py:320 | the span of every selected node is among the selected texts |
| Schema.ChildrenOfKind | source_parser/parsers/ruby_parser.py:245 | `children_of_type` with one type name keeps only children of exactly that type, in order |
| Schema.FilterKindsSnoc | source_parser/parsers/cpp_parser.py:196 | filtering one more child keeps it exactly when its type is one of the kinds |
| Schema.FirstOfKind | source_parser/parsers/cpp_parser.py:164-167 | the first child of the given type: it has that type and no earlier child does; none when no child has it |
| Schema.LastOfKind | source_parser/parsers/jsts_parser.py:617-618 | the last child of the given type: it has that type and none when no child has it |
| Schema.CommentRun | source_parser/parsers/cpp_parser.py:141-143 | the file's leading comment children: all comments, followed by a non-comment or the end |
| Schema.LeadingComments | source_parser/parsers/cpp_parser.py:138-144 | the loop joins those comments, each followed by a line feed |
| Schema.Lookup | source_parser/parsers/cpp_parser.py:243-245 | a key is missing exactly when no entry has it |
| Schema.Assign | source_parser/parsers/python_parser.py:184-186 | `d[k] = v`: a new key goes at the end; an existing key keeps its place and the length; every entry is the old one or `(k, v)` |
| Schema.AssignLookup | source_parser/parsers/python_parser.py:184-186 | after `d[k] = v`, `k` reads `v` and every other key what it read before |
| Schema.SplitDefault | source_parser/parsers/python_parser.py:177-186 | `list.index("=")` raises `ValueError` exactly when no child is "=" |
| Schema.SplitDefaultParts | source_parser/parsers/python_parser.py:177-186 | the key is the text before the first "=", the value the text after it |
| Schema.InsertByStart | source_parser/parsers/jsts_parser.py:384 | one insertion step of the stable sort adds exactly the node |
| Schema.SortByStart | source_parser/parsers/jsts_parser.py:384 | `sorted(..., key=start_byte)` holds the same nodes |
| Schema.SortByStartSorted | source_parser/parsers/jsts_parser.py:384 | the sorted list is in start-byte order and is a permutation of the input |
| Schema.CleanDocstringEmpty | source_parser/parsers/python_parser.py:104-107 | an empty comment cleans to the empty docstring |
| CFamily.FileDocstringLoop | source_parser/parsers/cpp_parser.py:135-146 | the loop of `file_docstring` computes `FileDocstring`: the leading comments, delimiters removed, stripped |
| CFamily.FileContextMeaning | source_parser/parsers/cpp_parser.py:149-153 | each entry is the text of a top-level import node with the whitespace around it, indentation included, removed; every top-level import node has its entry; no entry starts or ends with whitespace |
| CFamily.InNamespaces | source_parser/parsers/cpp_parser.py:197-201 | the nodes taken from namespaces all have one of the wanted types |
| CFamily.Candidates | source_parser/parsers/cpp_parser.py:191-216 | `class_nodes`/`method_nodes` start with the top-level nodes of the wanted types, in order, and hold only nodes of those types |
| CFamily.PlacementAfterUpdate | source_parser/parsers/cpp_parser.py:242-245 | after `update`, a member recorded in the tables gets its prefix and recorded parent, any other "" and the caller's parent, and the lookup never raises |
| Namespaces.NamespaceName | source_parser/parsers/cpp_parser.py:162-163 | the text of the `name` field, or "(unique)" |
| Namespaces.WritePrefixesAppend | source_parser/parsers/cpp_parser.py:160-174 | the writes of two runs one after the other are the run of both |
| Namespaces.SameKeys | source_parser/parsers/cpp_parser.py:168-174 | every write sets both tables, so a span is in one exactly when it is in the other |
| Namespaces.NotWritten | source_parser/parsers/cpp_parser.py:168-174 | a span no write touches keeps its old entry |
| Namespaces.LastWriteWins | source_parser/parsers/cpp_parser.py:168-174 | a span's prefix is the one of its last write |
| Namespaces.DirectChildRecorded | source_parser/parsers/cpp_parser.py:168-174 | every class and method child of the walked node is recorded with the walk's prefix and the node as parent |
| Namespaces.NestedNamespaceRecorded | source_parser/parsers/cpp_parser.py:161-167 | the first declaration list of a namespace child is walked with the namespace's name and the separator added to the prefix |
| Namespaces.PrefixesExtend | source_parser/parsers/cpp_parser.py:155-174 | every recorded prefix extends the walk's prefix and ends with the separator when longer |
| Namespaces.NamespaceTable.constructor | source_parser/parsers/cpp_parser.py:79-87 | `update` fills both tables with the writes of the walk from the root with prefix "" |
| Namespaces.NamespaceTable.Traverse | source_parser/parsers/csharp_parser.py:189-208 | `_traverse_namespace` applies exactly the writes of `Entries`, in order |
| Namespaces.NamespaceTable.VisitChild | source_parser/parsers/csharp_parser.py:195-208 | one pass of the loop applies that child's writes |
| Namespaces.NamespaceTable.VisitNamespace | source_parser/parsers/csharp_parser.py:196-201 | the walk into a namespace's first declaration list applies its writes |
| Cpp.DocstringBefore | source_parser/parsers/cpp_parser.py:117-132 | the docstring node is the previous sibling in the parent (the root when none is given), and only when that sibling is a comment |
| Cpp.SignatureEnd | source_parser/parsers/cpp_parser.py:223-226 | the signature stops at the first `compound_statement` child: none before it, and it is one when it exists |
| Cpp.Signature | source_parser/parsers/cpp_parser.py:218-227 | `_get_signature` is the text of the children before the first `compound_statement`, "" when the method starts with one |
| Cpp.AccessFails | source_parser/parsers/cpp_parser.py:274-279 | the access scan raises `IndexError` exactly when some `access_specifier` it reads has no children |
| Cpp.AccessDefault | source_parser/parsers/cpp_parser.py:273 | with no specifier before the member, the access is "private" |
| Cpp.AccessIsMostRecent | source_parser/parsers/cpp_parser.py:274-279 | the access is the first child's text of the most recent specifier |
| Cpp.AccessStep | source_parser/parsers/cpp_parser.py:274-279 | one more member of the parent changes the access only through a specifier |
| Cpp.ScanAccess | source_parser/parsers/cpp_parser.py:272-279 | the scan of the parent's children computes `MemberAccess`: the access before the member, or none when the member is not a child |
| Cpp.PrefixErrSpreads | source_parser/parsers/cpp_parser.py:274-279 | a childless specifier before the member makes the scan raise, whether or not the member comes later |
| Cpp.DeclaratorAt | source_parser/parsers/cpp_parser.py:282-287 | the annotation scan stops at or before the end |
| Cpp.SpecifierTextsStep | source_parser/parsers/cpp_parser.py:288-290 | one more child adds its text only when it is a storage class, virtual or explicit specifier |
| Cpp.ScanAnnotations | source_parser/parsers/cpp_parser.py:282-290 | the annotation loop computes `Annotations`: the specifiers before the first `function_declarator`, then its trailing `const` qualifier |
| Cpp.AddSpecifier | source_parser/parsers/cpp_parser.py:287-289 | one pass over a child before the declarator appends its text exactly when it is a specifier |
| Cpp.AnnotationsAt | source_parser/parsers/cpp_parser.py:281-289 | when child `i` is the first declarator (or there is none), the annotations are the specifiers before it and its trailing qualifier |
| Cpp.QualifierOf | source_parser/parsers/cpp_parser.py:285-286 | the declarator's last child is taken only when it is a `type_qualifier` |
| Cpp.DeclaratorAtIs | source_parser/parsers/cpp_parser.py:282-287 | the scan stops at the first `function_declarator` |
| Cpp.FieldAnnotations | source_parser/parsers/cpp_parser.py:377-397 | a field's annotations are the access in force, then its storage class when it starts with one; a built field has children |
| Cpp.ScanFields | source_parser/parsers/cpp_parser.py:369-405 | the field loop computes `FieldsUpTo` over the whole body |
| Cpp.FieldStep | source_parser/parsers/cpp_parser.py:372-405 | one member: the access it sets and the record it adds, or `IndexError` for the whole loop |
| Cpp.FieldsErrSpreads | source_parser/parsers/cpp_parser.py:372-374 | a childless specifier in the body makes the whole field loop raise `IndexError` |
| Cpp.FieldsErrAt | source_parser/parsers/cpp_parser.py:372-374 | a member that raises makes the field loop raise `IndexError` at that member |
| Cpp.FieldsErrFrom | source_parser/parsers/cpp_parser.py:371-374 | a raised `IndexError` is kept by every later member |
| Cpp.CppParser.constructor | source_parser/parsers/cpp_parser.py:79-87 | the new parser's tables are the namespace walk of its tree |
| Cpp.CppParser.Update | source_parser/parsers/cpp_parser.py:79-87 | `update` replaces file and tree and rebuilds both tables from scratch |
| Cpp.MethodHeadOf | source_parser/parsers/cpp_parser.py:229-297 | computes `MethodHead`: placement, docstring, body, name (a missing `declarator` raises `AttributeError`), return type, access and other annotations, syntax check |
| Cpp.Access | source_parser/parsers/cpp_parser.py:271-279 | a member gets an access annotation only under a `field_declaration_list` parent |
| Cpp.ParseMethodNode | source_parser/parsers/cpp_parser.py:229-320 | computes `ParseMethod`: the head, then the records of the body's classes and methods, the first raise winning |
| Cpp.ClassHeadOf | source_parser/parsers/cpp_parser.py:322-412 | computes `ClassHead`: placement, docstring, name, body, access, fields and syntax check |
| Cpp.ParseClassNode | source_parser/parsers/cpp_parser.py:322-435 | computes `ParseClass`: the head, then the records of the body's classes and methods |
| Cpp.ParseNestedClasses | source_parser/parsers/cpp_parser.py:415-422 | the comprehension over the body's classes computes `NestedClasses` |
| Cpp.NextClass | source_parser/parsers/cpp_parser.py:415-422 | the record of one more class child |
| Cpp.ParseNestedMethods | source_parser/parsers/cpp_parser.py:425-432 | the comprehension over the body's methods computes `NestedMethods` |
| Cpp.NextMethod | source_parser/parsers/cpp_parser.py:425-432 | the record of one more method child |
| CSharp.CommentStart | source_parser/parsers/csharp_parser.py:158-162 | the backward scan stops at the nearest non-comment before the node: everything between is a comment |
| CSharp.DocstringRun | source_parser/parsers/csharp_parser.py:135-166 | a docstring exists exactly when the node is a child of the parent (the root when none is given), not the first, and right after a comment; it is a non-empty run of comments |
| CSharp.DocstringRunMaximal | source_parser/parsers/csharp_parser.py:158-166 | the run ends just before the node and the sibling before it, if any, is not a comment |
| CSharp.GetDocstringBefore | source_parser/parsers/csharp_parser.py:147-166 | the two index scans compute `DocstringRun` |
| CSharp.ModuleType | source_parser/parsers/csharp_parser.py:369 | `type.split("_")[0]` is the prefix of the type up to its first underscore |
| CSharp.DefinitionEnd | source_parser/parsers/csharp_parser.py:382-383 | `index("identifier") + 1` raises `ValueError` exactly when no child is an identifier, and otherwise ends just after the first one |
| CSharp.SelectIn | source_parser/parsers/csharp_parser.py:319-320 | one text per child of exactly the given type |
| CSharp.Bases | source_parser/parsers/csharp_parser.py:418-421 | no bases without a `bases` field; otherwise one text per base child that is not ":" or "," |
| CSharp.GetFieldInfo | source_parser/parsers/csharp_parser.py:253-269 | the loops compute `FieldInfo`: type and name of the first `variable_declaration` |
| CSharp.LastDeclaratorText | source_parser/parsers/csharp_parser.py:265-267 | the name is the text of the last `variable_declarator`, "" when there is none |
| CSharp.MakeFieldsAt | source_parser/parsers/csharp_parser.py:424-452 | field record `i` belongs to field declaration `i` |
| CSharp.MakePropertiesAt | source_parser/parsers/csharp_parser.py:455-495 | property record `i` belongs to property declaration `i` |
| CSharp.ScanFields | source_parser/parsers/csharp_parser.py:424-452 | the field loop builds one record per `field_declaration` child of the body, in order |
| CSharp.FieldOf | source_parser/parsers/csharp_parser.py:427-450 | one field record is `MakeField` |
| CSharp.ScanProperties | source_parser/parsers/csharp_parser.py:455-495 | the property loop builds one record per `property_declaration` child of the body, in order |
| CSharp.ParamIndex | source_parser/parsers/csharp_parser.py:331-334 | the first `parameter_list` child, none when there is none |
| CSharp.SignatureOf | source_parser/parsers/csharp_parser.py:327-335 | the signature raises `UnboundLocalError` exactly when there is no parameter list |
| CSharp.SignatureSpan | source_parser/parsers/csharp_parser.py:327-335 | otherwise it is the indented text from the first child after a leading attribute list through the parameter list |
| CSharp.FindParamIndex | source_parser/parsers/csharp_parser.py:331-334 | the loop computes `ParamIndex` |
| CSharp.OptList | source_parser/parsers/csharp_parser.py:314-316 | an optional body as a list of nodes, empty exactly for none |
| CSharp.MethodHeadFails | source_parser/parsers/csharp_parser.py:323-335 | once placed, a method record fails exactly for a method with no children (`IndexError` at `children[0]`) or with no parameter list (`UnboundLocalError`) |
| CSharp.CSharpParser.constructor | source_parser/parsers/csharp_parser.py:98-106 | the new parser's tables are the namespace walk of its tree |
| CSharp.CSharpParser.Update | source_parser/parsers/csharp_parser.py:98-106 | `update` replaces file and tree and rebuilds both tables from scratch |
| CSharp.MethodHeadOf | source_parser/parsers/csharp_parser.py:271-342 | computes `MethodHead`: placement, docstring run, then the method's own parts |
| CSharp.BuildMethod | source_parser/parsers/csharp_parser.py:298-342 | the attribute, parameter and signature reads compute `MethodParts` |
| CSharp.ParseMethodNode | source_parser/parsers/csharp_parser.py:271-365 | computes `ParseMethod`: the head, then the records of the body's classes and methods |
| CSharp.ClassHeadOf | source_parser/parsers/csharp_parser.py:367-502 | computes `ClassHead`: module type, definition (a class without identifier raises `ValueError`), placement, docstring, name, body, modifiers, attributes, bases, fields, properties, syntax check |
| CSharp.ParseClassNode | source_parser/parsers/csharp_parser.py:367-525 | computes `ParseClass`: the head, then the records of the body's classes and methods |
| CSharp.ParseNestedClasses | source_parser/parsers/csharp_parser.py:505-512 | the comprehension over the body's classes computes `NestedClasses` |
| CSharp.NextClass | source_parser/parsers/csharp_parser.py:505-512 | the record of one more class child |
| CSharp.ParseNestedMethods | source_parser/parsers/csharp_parser.py:515-522 | the comprehension over the body's methods computes `NestedMethods` |
| CSharp.NextMethod | source_parser/parsers/csharp_parser.py:515-522 | the record of one more method child |
| Ruby.ModuleName | source_parser/parsers/ruby_parser.py:88-89 | a module's name followed by ".", "" for a module without a name |
| Ruby.WritesExtend | source_parser/parsers/ruby_parser.py:80-122 | every recorded prefix is the walk's prefix followed by module names, each ending in "." |
| Ruby.InnerClassWritesAt | source_parser/parsers/ruby_parser.py:116-120 | the inner classes of a class are recorded with the class's own prefix |
| Ruby.ModuleMemberRecorded | source_parser/parsers/ruby_parser.py:103-112 | a class or method directly in a module that holds one is recorded with the module's name and "." added to the prefix |
| Ruby.DirectMemberRecorded | source_parser/parsers/ruby_parser.py:113-122 | a class or method that is a direct child of the walked node is recorded with the walk's prefix |
| Ruby.RubyParser.constructor | source_parser/parsers/ruby_parser.py:44-50 | the new parser's table is the namespace walk of its tree |
| Ruby.RubyParser.Update | source_parser/parsers/ruby_parser.py:44-50 | `update` replaces file and tree and rebuilds the table from scratch |
| Ruby.RubyParser.Traverse | source_parser/parsers/ruby_parser.py:80-122 | `_traverse_namespace` applies exactly the writes of `Writes`, in order |
| Ruby.RubyParser.VisitChild | source_parser/parsers/ruby_parser.py:85-122 | one pass of the loop applies that child's writes |
| Ruby.RubyParser.VisitModule | source_parser/parsers/ruby_parser.py:87-112 | the walks into a module's sub-modules and, when it holds a class or method, into the module itself |
| Ruby.RubyParser.RecordClass | source_parser/parsers/ruby_parser.py:113-120 | a class and its class children are recorded with the walk's prefix |
| Ruby.HasMemberChild | source_parser/parsers/ruby_parser.py:103-109 | whether a module has a class or method child |
| Ruby.WithChildren | source_parser/parsers/ruby_parser.py:165 | only candidates with children are kept, in order |
| Ruby.CandidateClasses | source_parser/parsers/ruby_parser.py:147-166 | every class candidate is a class with children |
| Ruby.TopClassCandidate | source_parser/parsers/ruby_parser.py:153 | every class with children at the top level is a candidate |
| Ruby.InnerClassCandidate | source_parser/parsers/ruby_parser.py:160-161 | every class with children directly inside a top-level node is a candidate |
| Ruby.CandidateMethods | source_parser/parsers/ruby_parser.py:168-179 | every method candidate is a method with children |
| Ruby.CollectClassNodes | source_parser/parsers/ruby_parser.py:147-166 | the loops of `class_nodes` compute `ClassNodes` |
| Ruby.CollectMethodNodes | source_parser/parsers/ruby_parser.py:168-179 | the loops of `method_nodes` compute `MethodNodes` |
| Ruby.KeepWithChildren | source_parser/parsers/ruby_parser.py:165 | the comprehension computes `WithChildren` |
| Ruby.FileDocstringLoop | source_parser/parsers/ruby_parser.py:181-193 | the loop of `file_docstring` computes `FileDocstring`: the leading comments, cleaned |
| Ruby.RequireTexts | source_parser/parsers/ruby_parser.py:206-213 | only texts that start with "require ", "require_" or "include " are kept |
| Ruby.RequireKept | source_parser/parsers/ruby_parser.py:206-213 | every such text is kept |
| Ruby.FileContextLoop | source_parser/parsers/ruby_parser.py:201-215 | the loop of `file_context` computes `FileContext` |
| Ruby.Optionals | source_parser/parsers/ruby_parser.py:246-247 | only parameters whose type contains "optional_parameter" are split |
| Ruby.ArgDefaultsFail | source_parser/parsers/ruby_parser.py:246-256 | the defaults raise `ValueError` exactly when an optional parameter has no "=" child |
| Ruby.DefaultRecorded | source_parser/parsers/ruby_parser.py:251-256 | an optional parameter's value is what its key reads, unless a later one writes the same key |
| Ruby.DefaultKept | source_parser/parsers/ruby_parser.py:251-256 | keys no parameter writes keep their values |
| Ruby.OptionalIsParameter | source_parser/parsers/ruby_parser.py:257-259 | every optional parameter's text is also among the parameters |
| Ruby.AsWrittenStalls | source_parser/parsers/ruby_parser.py:268-270 | once the span covers every child, a signature reading "def self" is never left, whatever the number of passes |
| Ruby.DefSelfNeverEnds | source_parser/parsers/ruby_parser.py:261-270 | for a method whose only children are `def` and `self`, the loop as written never ends |
| Ruby.Signature | source_parser/parsers/ruby_parser.py:261-271 | the corrected loop stops once the span covers every child; a signature still reading "def self" is then the whole method's text |
| Ruby.FirstIndex | source_parser/parsers/ruby_parser.py:261-266 | the first `method_parameters` child, the default without one |
| Ruby.SignatureAgrees | source_parser/parsers/ruby_parser.py:261-270 | wherever the loop as written ends within its passes, its signature is the one the corrected loop gives |
| Ruby.SignatureLoop | source_parser/parsers/ruby_parser.py:261-273 | the corrected loop computes `Signature` |
| Ruby.ParseMethod | source_parser/parsers/ruby_parser.py:217-297 | a method record carries the method's own byte span |
| Ruby.ReplaceColons | source_parser/parsers/ruby_parser.py:352 | replacing "::" by "." leaves no "::" |
| Ruby.NoDoubleColonMeans | source_parser/parsers/ruby_parser.py:352 | no two ':' in a row means no "::" |
| Ruby.StripNoDoubleColon | source_parser/parsers/ruby_parser.py:352 | stripping keeps a text free of "::" |
| Ruby.ContextsPlain | source_parser/parsers/ruby_parser.py:346-352 | no context of a class contains "::" |
| Ruby.ContextsKeep | source_parser/parsers/ruby_parser.py:349-352 | every argument list of an include call is among the contexts |
| Ruby.CallExpressionsKeep | source_parser/parsers/ruby_parser.py:353-354 | every call that is not an include is among the attribute expressions |
| Ruby.MethodDefaultsFail | source_parser/parsers/ruby_parser.py:238-259 | the defaults of all parameter lists raise `ValueError` exactly when some optional parameter lacks its "=" |
| Ruby.MethodHeadMeaning | source_parser/parsers/ruby_parser.py:217-273 | a method record raises `ValueError` exactly when an optional parameter has no "="; otherwise it has the method's span, last name, parameters and signature |
| Ruby.PickedFrom | source_parser/parsers/ruby_parser.py:364-381 | the nested lists parse only children of the wanted types (with children, inside a class) |
| Ruby.NestedMethodsSpans | source_parser/parsers/ruby_parser.py:287-295 | a nested method list holds one record per picked child, in order, each with that child's span |
| Ruby.NestedClassesHold | source_parser/parsers/ruby_parser.py:277-285 | every picked class child's record is in the nested list |
| Ruby.IndexOf | source_parser/parsers/ruby_parser.py:402 | `class_names.index(name)` is the first position holding the name |
| Ruby.MergeStep | source_parser/parsers/ruby_parser.py:395-405 | a new full name appends the class; a known name whose node was not taken yet adds its methods to the class kept under that name and changes no other; a node already taken changes no class; the methods' spans are recorded every time; names stay distinct |
| Ruby.ParseClasses | source_parser/parsers/ruby_parser.py:394-395 | one record per candidate when none raises |
| Ruby.MergeRecords | source_parser/parsers/ruby_parser.py:390-405 | the loop's state stays well formed |
| Ruby.MergeCovers | source_parser/parsers/ruby_parser.py:394-405 | every record's full name is kept and the spans of all its methods are recorded as in a class |
| Ruby.Outside | source_parser/parsers/ruby_parser.py:411 | only method candidates not parsed inside a class are kept |
| Ruby.ParseMethodsSpans | source_parser/parsers/ruby_parser.py:411 | the top-level method records carry the spans of their nodes, in order |
| Ruby.SchemaMeaning | source_parser/parsers/ruby_parser.py:385-413 | the schema's classes have distinct full names, every class candidate's record is among them by name, and no top-level method shares its span with a method of a class |
| Ruby.ScanParameters | source_parser/parsers/ruby_parser.py:245-259 | the loop over one parameter list computes its defaults and parameter texts |
| Ruby.ScanMethodChildren | source_parser/parsers/ruby_parser.py:238-259 | the loop over the method's children computes the defaults, the last parameter list and the last name |
| Ruby.MethodHeadOf | source_parser/parsers/ruby_parser.py:217-273 | computes `MethodHead` |
| Ruby.ParseMethodNode | source_parser/parsers/ruby_parser.py:217-297 | computes `ParseMethod` |
| Ruby.ScanIncludeArgs | source_parser/parsers/ruby_parser.py:350-352 | the argument lists of an include call, as paths with "." |
| Ruby.ScanCalls | source_parser/parsers/ruby_parser.py:346-354 | the loop over the class's calls computes the contexts and the call expressions |
| Ruby.ClassHeadOf | source_parser/parsers/ruby_parser.py:299-361 | computes `ClassHead` |
| Ruby.ParseClassNode | source_parser/parsers/ruby_parser.py:299-383 | computes `ParseClass` |
| Ruby.ParseNestedClasses | source_parser/parsers/ruby_parser.py:364-372 | the comprehension computes `NestedClasses` |
| Ruby.NextClass | source_parser/parsers/ruby_parser.py:364-372 | the record of one more class child |
| Ruby.ParseNestedMethods | source_parser/parsers/ruby_parser.py:374-382 | the comprehension computes `NestedMethods` |
| Ruby.NextMethod | source_parser/parsers/ruby_parser.py:374-382 | the record of one more method child |
| Ruby.Merge | source_parser/parsers/ruby_parser.py:396-405 | one pass of the `schema` loop computes `MergeStep` |
| Ruby.KeepOutside | source_parser/parsers/ruby_parser.py:411 | computes `Outside` |
| Ruby.ParseMethodList | source_parser/parsers/ruby_parser.py:411 | the comprehension computes `ParseMethods` |
| Ruby.MergeRecordsSnoc | source_parser/parsers/ruby_parser.py:394-405 | the loop after one more candidate is one more `MergeStep` |
| Ruby.MergeCandidates | source_parser/parsers/ruby_parser.py:394-405 | the class loop computes `MergeRecords` of the parsed candidates, or the first raised error |
| Ruby.MergeNext | source_parser/parsers/ruby_parser.py:395-405 | one candidate: its parse result, and on success the merged state after it |
| Ruby.BuildSchema | source_parser/parsers/ruby_parser.py:385-413 | the `schema` property computes `SchemaOf` |
| Python.Distinguish | source_parser/parsers/python_parser.py:76-86 | `_distinguish_decorated` raises `IndexError` exactly for a decorated definition without children; otherwise a node is kept exactly when it is the definition or decorates one as its last child |
| Python.Defns | source_parser/parsers/python_parser.py:88-89 | only definitions of the wanted kind, plain or decorated, are kept, in order |
| Python.DefnsKeep | source_parser/parsers/python_parser.py:88-89 | every such definition is kept |
| Python.DecoratedDefnMeaning | source_parser/parsers/python_parser.py:88-101 | the candidates raise `IndexError` exactly when some node is a childless decorated definition; otherwise they are the definitions among the nodes, in order |
| Python.FileDocstringFirst | source_parser/parsers/python_parser.py:119-130 | only the first child is read: files with the same first child have the same docstring, and one that opens with neither a string nor a comment has none |
| Python.DecoratorTexts | source_parser/parsers/python_parser.py:160-164 | one text per decorator child, in order |
| Python.DecoratorsAre | source_parser/parsers/python_parser.py:159-164 | a decorated definition's decorators are the texts of its decorator children, one each, in order |
| Python.Wrapped | source_parser/parsers/python_parser.py:159-166 | the definition taken is the node itself or one of its children |
| Python.UndecorateStep | source_parser/parsers/python_parser.py:160-166 | one more child adds its decorator text, or becomes the wrapped definition when it is one |
| Python.Undecorate | source_parser/parsers/python_parser.py:159-166 | the decorator loop collects the decorators and takes the last wrapped definition |
| Python.ArgDefaultsFail | source_parser/parsers/python_parser.py:176-186 | the defaults raise `ValueError` exactly when a parameter whose type contains "default" has no "=" child |
| Python.ParamDefaultsFail | source_parser/parsers/python_parser.py:169-186 | over all `parameters` children, the same |
| Python.DefaultRecorded | source_parser/parsers/python_parser.py:181-186 | a default parameter's value is what its key reads, unless a later one writes the same key |
| Python.DefaultKept | source_parser/parsers/python_parser.py:181-186 | keys no parameter writes keep their values |
| Python.NoMoreParameters | source_parser/parsers/python_parser.py:175 | children that are not `parameters` write nothing |
| Python.SingleParameterList | source_parser/parsers/python_parser.py:169-186 | with one `parameters` child the defaults come from that child alone |
| Python.Heads | source_parser/parsers/python_parser.py:169 | `children[:-1]` drops the last child |
| Python.NameOf | source_parser/parsers/python_parser.py:171-172 | no name exactly when no child before the body is an identifier |
| Python.ParseMethod | source_parser/parsers/python_parser.py:144-203 | a method record carries the node's own byte span |
| Python.MethodMeaning | source_parser/parsers/python_parser.py:144-203 | a method record raises `RecursionError` for a tree too deep to check, `ValueError` for a default without "=", `IndexError` for a definition without children; otherwise it holds the node's text, the name, the decorators and the signature |
| Python.MethodBody | source_parser/parsers/python_parser.py:191-201 | when the body's first statement opens with a docstring-type node its cleaned text is the docstring and the rest the body; otherwise the docstring is empty and the body is the whole block |
| Python.MethodDefault | source_parser/parsers/python_parser.py:175-186 | with a single parameter list, a default's value is what its key reads in the record |
| Python.AttrsFromAre | source_parser/parsers/python_parser.py:240-243 | every assignment statement from the position on gives an attribute expression, and each one is such a text |
| Python.AttributeExpressionsAre | source_parser/parsers/python_parser.py:235-243 | every assignment statement of the body gives an attribute expression, and every attribute expression is the text of one |
| Python.ParseClass | source_parser/parsers/python_parser.py:205-248 | a class record carries the node's own byte span |
| Python.ClassFrom | source_parser/parsers/python_parser.py:227-248 | the rest of the class record keeps that span |
| Python.MemberSpans | source_parser/parsers/python_parser.py:244-247 | a statement yields a method record when it is a function definition and a class record when it is a class definition |
| Python.MembersSpans | source_parser/parsers/python_parser.py:233-247 | a body's method records are those of its function definitions and its class records those of its class definitions, plain or decorated, one each, in order |
| Python.ClassNoColon | source_parser/parsers/python_parser.py:227 | a class definition without a ":" child raises `ValueError` |
| Python.ClassTooShort | source_parser/parsers/python_parser.py:231 | one with fewer than two children raises `IndexError` |
| Python.ClassMeaning | source_parser/parsers/python_parser.py:215-231 | a class record's definition is its decorators, one per line, then the children through the first ":"; its name is the second child; its original string is the whole node |
| Python.ScanParameters | source_parser/parsers/python_parser.py:176-186 | the loop over one `parameters` child computes its defaults |
| Python.ScanHeads | source_parser/parsers/python_parser.py:169-186 | the loop over every child but the body computes the defaults and the last name |
| Python.ParseMethodNode | source_parser/parsers/python_parser.py:144-203 | computes `ParseMethod` |
| Python.ParseClassNode | source_parser/parsers/python_parser.py:205-248 | computes `ParseClass` |
| Python.ClassNodeFrom | source_parser/parsers/python_parser.py:227-248 | computes `ClassFrom` |
| Python.FirstIndexOf | source_parser/parsers/python_parser.py:227 | `index(":")`, none where it raises |
| Python.ScanBody | source_parser/parsers/python_parser.py:233-247 | the body loop computes the docstring, the attribute expressions and the member records |
| Python.StatementText | source_parser/parsers/python_parser.py:240-243 | one statement's contribution to the attribute expressions |
| Python.BodyDocstring | source_parser/parsers/python_parser.py:236-239 | the first statement's leading string, cleaned, is the class docstring |
| Python.AttrsStep | source_parser/parsers/python_parser.py:240-243 | one statement moves from the pending to the collected attribute expressions |
| Python.NextMember | source_parser/parsers/python_parser.py:244-247 | statement `i` of a class body, then the rest |
| Python.MemberNode | source_parser/parsers/python_parser.py:244-247 | one statement's method record, then its class record |
| JstsDiscovery.Write | source_parser/parsers/jsts_parser.py:130-140 | one recorded note sets exactly one entry of the declaration, name or export table |
| JstsDiscovery.ApplyAppend | source_parser/parsers/jsts_parser.py:130-140 | the writes of two runs one after the other are the run of both |
| JstsDiscovery.RootOf | source_parser/parsers/jsts_parser.py:487-493 | a node's root is the export statement around it when there is one, else the declaration it was found in, else none |
| JstsDiscovery.Notes | source_parser/parsers/jsts_parser.py:236-252 | one write per found node |
| JstsDiscovery.ExportNotesWin | source_parser/parsers/jsts_parser.py:277-301 | after an export statement's writes, every node found in it, and every key it already held, points at that statement |
| JstsDiscovery.ExportedRoot | source_parser/parsers/jsts_parser.py:277-301 | a method found in an export statement has that statement as its record's root, whichever declaration it was also found in |
| JstsDiscovery.WithChildren | source_parser/parsers/jsts_parser.py:384 | exactly the nodes with children are kept |
| JstsDiscovery.MethodNodesSorted | source_parser/parsers/jsts_parser.py:377-385 | the method candidates are in start-byte order, all have children, and are the childful candidates rearranged |
| JstsDiscovery.ClassNodesSorted | source_parser/parsers/jsts_parser.py:387-395 | the class candidates likewise |
| JstsDiscovery.ChildDepth | source_parser/parsers/jsts_parser.py:303-313 | a child is shallower than its parent |
| JstsDiscovery.DeclarationFnsBelow | source_parser/parsers/jsts_parser.py:217-254 | the functions found in a declaration lie below it |
| JstsDiscovery.ValueFnsBelow | source_parser/parsers/jsts_parser.py:238-250 | the functions found in a declarator's value lie below the value |
| JstsDiscovery.InsideMethodBelow | source_parser/parsers/jsts_parser.py:303-313 | every function `get_inside_method(node)` finds lies below `node`, so the nested walk ends |
| Jsts.RecursePrefix | source_parser/parsers/jsts_parser.py:708-746 | the signature walk collects the first leaves of the subtree, all of them when it never reaches a body |
| Jsts.BodyFreeWalk | source_parser/parsers/jsts_parser.py:708-746 | the walk of a subtree without a body never reports an end |
| Jsts.StopsAtBody | source_parser/parsers/jsts_parser.py:708-746 | when child `j` is the first `body` field and the children before it hold no body, the walk stops there with exactly their leaves and reports the end |
| Jsts.SkipBodyFree | source_parser/parsers/jsts_parser.py:730-746 | a child that is not the body and holds none is walked whole |
| Jsts.TreeRecurse | source_parser/parsers/jsts_parser.py:708-746 | `tree_recurse` with its loop over the children computes `Recurse` |
| Jsts.LastWhere | source_parser/parsers/jsts_parser.py:748-775 | the last child passing the test, none only when no child does |
| Jsts.ParamScanMeaning | source_parser/parsers/jsts_parser.py:748-775 | a default parameter's key is its last identifier, its type the last type annotation and its value the last other child, each "" when there is none |
| Jsts.ParamDefaultLookup | source_parser/parsers/jsts_parser.py:748-775 | after `get_default_params` the key and type read the value, and every other entry is unchanged |
| Jsts.GetDefaultParams | source_parser/parsers/jsts_parser.py:748-775 | the loop computes `ParamDefault` |
| Jsts.GetSignatureDefaultArgs | source_parser/parsers/jsts_parser.py:686-704 | computes the signature text and the defaults of `SignatureOf` |
| Jsts.DocstringIsPreviousComment | source_parser/parsers/jsts_parser.py:645-679 | once the node is found, its docstring is its previous sibling's comment text when that sibling is a comment other than the file's first child, "" otherwise |
| Jsts.DocstringErrors | source_parser/parsers/jsts_parser.py:645-679 | a node with no parent in the tree makes the lookup raise `AttributeError`, and one missing from the searched children makes `list.index` raise `ValueError` |
| Jsts.DocRunAdjacent | source_parser/parsers/jsts_parser.py:409-431 | the file docstring gathers comments in order, each starting at most one row below the end of the one before |
| Jsts.DocRunAfterCode | source_parser/parsers/jsts_parser.py:409-431 | after a child that is not a comment nothing is gathered |
| Jsts.FileDocstringNeedsComment | source_parser/parsers/jsts_parser.py:397-431 | a file whose first child is not a comment has no docstring |
| Jsts.LineCommentOpensRun | source_parser/parsers/jsts_parser.py:409-431 | a first comment opens the gathered run |
| Jsts.FileDocstring | source_parser/parsers/jsts_parser.py:397-431 | `file_docstring` with its loop computes `FileDocstringOf` |
| Jsts.FileContextMeaning | source_parser/parsers/jsts_parser.py:433-440 | each entry is the unindented text of a top-level import statement, and every top-level import statement has its entry |
| Jsts.FileContext | source_parser/parsers/jsts_parser.py:433-440 | the loop over the root's children computes `FileContextOf` |
| Jsts.FirstChildOfKinds | source_parser/parsers/jsts_parser.py:107-128 | the first child of one of the types, none only when no child has one |
| Jsts.CountKind | source_parser/parsers/jsts_parser.py:523-529 | a count never exceeds the number of children |
| Jsts.MethodNamePrecedence | source_parser/parsers/jsts_parser.py:514-545 | the name comes from the name table first, then from the `name` field, then from the first name-typed child; it is "" only when none of them has text |
| Jsts.KeywordsBetween | source_parser/parsers/jsts_parser.py:523-540 | keywords are recorded exactly when a name-typed child comes after the counted decorators, and then they are the children between |
| Jsts.DecoratorsFirst | source_parser/parsers/jsts_parser.py:531-535 | when the decorators come first, the recorded decorators are the text of every decorator child |
| Jsts.ParseMethod | source_parser/parsers/jsts_parser.py:481-567 | a method record carries the node's own byte span |
| Jsts.WithBodyMethods | source_parser/parsers/jsts_parser.py:551-561 | adding the nested methods keeps the head's byte span |
| Jsts.NestedSpans | source_parser/parsers/jsts_parser.py:551-561 | one nested record per candidate, in the candidates' order, each with its node's span |
| Jsts.BodyMethodsBelow | source_parser/parsers/jsts_parser.py:551-556 | the nested candidates of a method lie below it, so the recursion ends |
| Jsts.ClassBodyMethodsBelow | source_parser/parsers/jsts_parser.py:629-635 | the class methods lie below the class |
| Jsts.ParseClass | source_parser/parsers/jsts_parser.py:570-643 | a class record carries the node's own byte span |
| Jsts.DeclarationsStep | source_parser/parsers/jsts_parser.py:217-254 | one declaration further into `get_fn_in_declarations`: its error ends the loop, its notes come next |
| Jsts.ExportsStep | source_parser/parsers/jsts_parser.py:277-301 | one export statement further into `get_fn_in_exports` |
| Jsts.NestedStep | source_parser/parsers/jsts_parser.py:551-561 | one candidate further into the nested records |
| Jsts.ClassMethodsBelow | source_parser/parsers/jsts_parser.py:629-635 | the methods of the class bodies lie below the class |
| Jsts.GetFirstChildOfType | source_parser/parsers/jsts_parser.py:107-128 | the loop computes `FirstChildOfKinds` |
| Jsts.FindNameIndex | source_parser/parsers/jsts_parser.py:523-529 | the loop computes `name_idx` |
| Jsts.ExtractClassDefinition | source_parser/parsers/jsts_parser.py:360-374 | the loop computes the class definition up to the first heritage |
| Jsts.ClassBodyMethodList | source_parser/parsers/jsts_parser.py:629-635 | the nested loops over the class bodies compute `ClassBodyMethods` |
| Jsts.MethodDefinitions | source_parser/parsers/jsts_parser.py:632-635 | the inner loop keeps exactly the `method_definition` children of one class body, in order |
| Jsts.JstsParser.constructor | source_parser/parsers/jsts_parser.py:130-140 | a new parser holds the file and tree with empty tables |
| Jsts.JstsParser.Update | source_parser/parsers/jsts_parser.py:130-140 | `update` replaces file and tree and empties the tables |
| Jsts.JstsParser.RecordDeclared | source_parser/parsers/jsts_parser.py:236-252 | each node is recorded as found in the declaration |
| Jsts.JstsParser.RecordExported | source_parser/parsers/jsts_parser.py:290-299 | each node is recorded as exported by the statement |
| Jsts.JstsParser.RecordValueFns | source_parser/parsers/jsts_parser.py:238-250 | a value with fewer than two children raises `IndexError`; otherwise its functions are recorded with the declaration |
| Jsts.JstsParser.DeclarationStep | source_parser/parsers/jsts_parser.py:225-252 | one declaration computes `DeclarationFns` and applies its writes |
| Jsts.JstsParser.GetFnInDeclarations | source_parser/parsers/jsts_parser.py:217-254 | computes `FnInDeclarations` and applies its writes |
| Jsts.JstsParser.ExpressionStep | source_parser/parsers/jsts_parser.py:264-274 | one statement computes `ExpressionFns` and applies its writes |
| Jsts.JstsParser.GetFnInExpressions | source_parser/parsers/jsts_parser.py:256-275 | computes `FnInExpressions` and applies its writes |
| Jsts.JstsParser.ExportStep | source_parser/parsers/jsts_parser.py:285-300 | one export statement computes `ExportFns` and applies its writes |
| Jsts.JstsParser.GetFnInExports | source_parser/parsers/jsts_parser.py:277-301 | computes `FnInExports` and applies its writes |
| Jsts.JstsParser.GetInsideMethod | source_parser/parsers/jsts_parser.py:303-313 | computes `InsideMethod` and applies its writes |
| Jsts.JstsParser.ClassDeclarationStep | source_parser/parsers/jsts_parser.py:323-335 | one declaration computes `DeclarationClasses` and applies its writes |
| Jsts.JstsParser.GetClassInDeclaration | source_parser/parsers/jsts_parser.py:315-336 | computes `ClassInDeclaration` and applies its writes |
| Jsts.JstsParser.ExportClassStep | source_parser/parsers/jsts_parser.py:346-357 | one export statement computes `ExportClasses` and applies its writes |
| Jsts.JstsParser.GetInsideClass | source_parser/parsers/jsts_parser.py:338-358 | computes `InsideClass` and applies its writes |
| Jsts.JstsParser.MethodNodes | source_parser/parsers/jsts_parser.py:377-385 | `method_nodes` computes the sorted candidates and applies the discovery writes |
| Jsts.JstsParser.ClassNodes | source_parser/parsers/jsts_parser.py:387-395 | `class_nodes` likewise |
| Jsts.JstsParser.RootNode | source_parser/parsers/jsts_parser.py:487-493 | computes `RootOf` on the current tables |
| Jsts.JstsParser.MethodNaming | source_parser/parsers/jsts_parser.py:514-545 | computes the name, decorators and keywords |
| Jsts.JstsParser.MethodHeadNode | source_parser/parsers/jsts_parser.py:481-549 | computes `MethodHead` |
| Jsts.JstsParser.ParseMethodNodeUnder | source_parser/parsers/jsts_parser.py:481-567 | computes `ParseMethod`, tables included |
| Jsts.JstsParser.WithBodyMethodsNode | source_parser/parsers/jsts_parser.py:551-561 | computes `WithBodyMethods`, tables included |
| Jsts.JstsParser.ParseMethodsUnder | source_parser/parsers/jsts_parser.py:551-561 | the loop over the nested candidates computes `NestedMethods` |
| Jsts.JstsParser.NextNested | source_parser/parsers/jsts_parser.py:555-557 | one nested record, glued to those before |
| Jsts.JstsParser.ParseMethodNode | source_parser/parsers/jsts_parser.py:442-479 | a node of neither method type fails the assertion; any other is parsed with no parent |
| Jsts.JstsParser.ClassHeadNode | source_parser/parsers/jsts_parser.py:570-627 | computes `ClassHead` |
| Jsts.JstsParser.ParseClassNode | source_parser/parsers/jsts_parser.py:570-643 | computes `ParseClass`, tables included |

## Left out

- I/O: reading files from disk, `load_from_file`/`save` (pickle), the crawler's directory walk and the Ray workers are outside the model; file contents arrive as parameters.
- Timeouts: the SIGALRM-based timeout around parsing is not modelled, because it depends on a clock.
- Tree-sitter itself: the parser that builds the concrete syntax tree is not modelled. Trees arrive as values of the `Node` datatype.
- Node identity: tree-sitter nodes are compared by value (kind, span, field, children), not by object identity.
- `children_of_type` with a tuple is set membership; with a single string it is taken as an exact type match. This is the behaviour the parser tests depend on, not a substring test.
- The `language_parser` helpers `span_select`, `children_of_type`, `previous_sibling`, `traverse_type`, `has_correct_syntax` and `nodes_are_equal` are modelled from their documented behaviour. `span_select` of no nodes is the empty string. `nodes_are_equal` is taken to compare type and byte span (`Jsts.NodesAreEqual`).
- `traverse_type` and the parsers' recursive walks: Python's recursion limit is not modelled, except in `has_correct_syntax`, where a depth above 1000 raises `RecursionError`. The C++, C# and JavaScript/TypeScript parsers catch it and record a syntax failure; the Python method parser lets it escape.
- Dictionary insertion order is modelled as association lists (`seq` of pairs), where setting an existing key keeps its position.
- Text is `seq<char>` with one character per byte. UTF-8 decoding, Go's byte offsets into multi-byte text and Unicode case folding are left out; IGNORECASE matching is ASCII lower-casing.
- Regular-expression engines are not modelled in general; each pattern the core uses is written out as its own function.
- `minify_js` and the JavaScript `preprocess_file` are left out: they call external libraries.
- Python `preprocess_file` (the lib2to3 fixers) is left out, because it calls an external refactoring library.
- Statistics: means and fractions in the literal counter are kept as integer counts, with no floating point.
- `fmt_num` is modelled by its code; its doc comment promises a format the code does not produce.
- LiteralCounter.LiteralCount.Prune: modelled by its code, which keeps each counter's `most_common(keep_num)`. Its docstring (tree_sitter/__init__.py:455) also promises to remove literals seen once, and the code does not keep that promise. When a counter has at most `keep_num` keys, an entry with count 1 survives (`LiteralCounter.PruneKeepsSingletons`).
- LiteralCounter.LiteralCount.CountLits: the `root` parameter is taken to be the tree of `code` in the counter's language. The source parses with the class attribute `LiteralCount.PARSER = Parser()` (tree_sitter/__init__.py:267), and no code shown gives that parser a language. If parsing without a language raises, the `except Exception` at tree_sitter/__init__.py:437-438 returns empty counters for every code of two or more lines. The model does not capture that outcome, and nothing here decides which behaviour the binding has.
- Untokenize.Normalize: `normalize` sets each of the keys "num", "str", "char" and "regex" missing from the caller's `lits` to `[]`, in place (tree_sitter/__init__.py:516-520). The model takes `lits` as a value: it reads a missing key as empty, and it neither returns nor states the filled dict the caller sees afterwards.
- `static_hash` is left out: it wraps a hash function from a library.
- `LiteralCounter` `load_file` is not modelled: it only reads a file.
- The public `parse` entry points that pick a parser from a language name are not modelled; each language parser is called directly, and `starting_point` is a parameter.
- C++ and C# schema assembly beyond the method, class and namespace records is not modelled.
- Ruby.Signature: the corrected loop: it stops once the span covers every child and returns the whole method's text on a method whose only children are `def` and `self`, where the source loops forever (ruby_parser.py:268-270). Wherever the loop as written ends, both agree (`Ruby.SignatureAgrees`).
- Ruby.SignatureLoop: returns `Signature`, so it returns the whole method's text on a method whose only children are `def` and `self`, where the source loops forever (ruby_parser.py:268-270).
- Ruby.MethodHeadMeaning: states the head built on `Signature`; on a method whose only children are `def` and `self`, where the source loops forever (ruby_parser.py:268-270), that head has the whole method's text as its signature.
- Ruby.MethodHeadOf: returns a head whose signature is the whole method's text on a method whose only children are `def` and `self`, where the source loops forever (ruby_parser.py:268-270).
- Ruby.ParseMethod: returns a record whose signature is the whole method's text on a method whose only children are `def` and `self`, where the source loops forever (ruby_parser.py:268-270).
- Ruby.ParseMethodNode: returns a record on a method whose only children are `def` and `self`, where the source loops forever (ruby_parser.py:268-270); its signature is the whole method's text.
- Ruby.NextMethod: returns a record for a nested method that is a method whose only children are `def` and `self`, where the source loops forever (ruby_parser.py:268-270).
- Ruby.ParseNestedMethods: returns records for nested methods that include a method whose only children are `def` and `self`, where the source loops forever (ruby_parser.py:268-270).
- Ruby.ParseMethodList: returns records for top-level methods that include a method whose only children are `def` and `self`, where the source loops forever (ruby_parser.py:268-270).
- Ruby.ParseClassNode: returns a class record whose methods include a method whose only children are `def` and `self`, where the source loops forever (ruby_parser.py:268-270).
- Ruby.NextClass: returns a class record for a nested class whose methods include a method whose only children are `def` and `self`, where the source loops forever (ruby_parser.py:268-270).
- Ruby.ParseNestedClasses: returns records for nested classes whose methods include a method whose only children are `def` and `self`, where the source loops forever (ruby_parser.py:268-270).
- Ruby.ParseClasses: returns records for classes whose methods include a method whose only children are `def` and `self`, where the source loops forever (ruby_parser.py:268-270).
- Ruby.MergeNext: merges a class record whose methods include a method whose only children are `def` and `self`, where the source loops forever (ruby_parser.py:268-270).
- Ruby.MergeCandidates: returns merged records for classes whose methods include a method whose only children are `def` and `self`, where the source loops forever (ruby_parser.py:268-270).
- Ruby.BuildSchema: returns a schema for a file holding a method whose only children are `def` and `self`, where the source loops forever (ruby_parser.py:268-270).
- Ruby.SchemaMeaning: states the schema also for a file holding a method whose only children are `def` and `self`, where the source loops forever (ruby_parser.py:268-270).
- Ruby: parsing a file in one pass is not proved equal to parsing and then merging the per-class results.
- Python: `defaultdict(list)` attribute tables become association lists of lists.
- Python: the docstring test on a class body's first statement is done once, after the member loop; the source does it inside the loop, with the same outcome.
- Python: the class-body scan is split into one step method per member kind.
- JavaScript/TypeScript: the contents of the tables after a discovery call raises are not specified.
- JavaScript/TypeScript: a `methods` key that the source leaves out when there are no methods is modelled as an empty sequence.
- JavaScript/TypeScript: `get_default_params` updates a dict in place; the model returns the updated dict.
- JavaScript/TypeScript: the `RecursionError` from deeply nested classes is not modelled.
- Jsts.MethodHead: a method with no child of a body type gets the body ""; `_parse_method_node` then passes `None` to `span_select`, whose behaviour for `None` is not part of this model.
- Helpers.YieldSchemMeths: `yield_schem_meths` writes `class_name` into the schema's own class-method dicts in place (helpers.py:99); the model yields tagged copies and leaves the schema as it was, so a later read of the schema does not see the tag.
- GoParser.MatchFromSpan: reads the start and end byte, the evident meaning of `startIndex`/`endIndex`; as written the read raises `AttributeError` (see Findings and `GoParser.AsWrittenFailsOnDecl`).
- GoParser.GetFunctionMetadata: built on the byte reading of `match_from_span`; as written every well-formed declaration raises `AttributeError`.
- GoParser.GetDefinition: computes `Definitions`, the byte reading; as written it raises on the first declaration (`GoParser.AsWrittenFailsOnDecl`).
- GoParser.DefinitionsStep: states the scan under the byte reading only.
- GoParser.DefinitionsFail: under the byte reading the only failure is `IndexError`; as written `AttributeError` is the usual one.
- GoParser.DefinitionsOnePerDecl: holds under the byte reading; as written there are no records to count once a declaration is present.
- GoParser.DocstringIsPrecedingComments: holds under the byte reading; as written a declaration with comments above it raises `AttributeError` at the first comment.

## Findings

In the first two rows the operations follow the code as written (`Untokenize.Normalize`, `SourceUtils.Tokenize` and the
minified-code check), and the corrected reading is proved beside them. In the last two rows the operations use the
corrected reading, and "## Left out" names each member that does, with what it returns where the code as
written does not.

| source | as written | input that shows it | evidently intended | confidence | as-written member | corrected member |
|---|---|---|---|---|---|---|
| source_parser/tree_sitter/__init__.py:737-742 | the same-row branch reads `code_string[-1]` even when nothing has been emitted yet | a first token that is a removed comment, followed on the same row by a token with a gap before it | treat an empty `code_string` as not ending in a space | not executed | Untokenize.GapAsWritten | Untokenize.GapCorrected |
| source_parser/utils.py:61-73 | `COMPOUND_LITS` lacks a comma, so two of its strings are glued into one | a `concatenated_string` node: its type contains "string" and is not in the tuple, so its whole span becomes one token | three separate compound literal types, whose parts are visited one by one | not executed | Leaves.ConcatenatedAsWritten | Leaves.ConcatenatedIntended |
| source_parser/parsers/go_parser.py:19-22 | `match_from_span` reads `node.startIndex` and `node.endIndex`; the `tree-sitter` binding the package requires (`>=0.20.1,<0.22`, setup.py:58) gives nodes `start_byte` and `end_byte` instead, which every other parser reads | `package p\nfunc f() {}`: one well-formed function declaration | read `start_byte` and `end_byte` | not executed | GoParser.DeclarationAsWritten | GoParser.DeclarationIntended |
| source_parser/parsers/ruby_parser.py:261-270 | `while sig.strip() == "def self": param_index += 2` keeps looping once the span reaches past the last child | a method whose only children are `def` and `self` | stop once the span covers every child | not executed | Ruby.DefSelfNeverEnds | Ruby.Signature |
