# A verified model of the yaml front end

This project models four parts of the front end of the `yaml` library for
JavaScript, and proves properties of each:

- **The streaming lexer** (`Lexer`, module `Lexing`). It cuts YAML 1.2 source,
  which may arrive in chunks, into the source tokens it hands to its `push`
  callback. It also emits the two marker tokens `DOCUMENT` and `SCALAR`.
- **Flow collection composition** (`composeFlowCollection`, module
  `FlowComposing`). It walks the items of a `{ … }` or `[ … ]` collection and
  builds the map or sequence.
- **Scalar composition** (`composeScalar`, module `ScalarComposing`). It
  chooses the schema tag for a scalar, by name or by test, then resolves the
  value and sets the node's fields.
- **The directive node of the CST** (`Directive`, module `Directives`). It
  scans the name and parameters of a `%` line, and splits the parameters.

The lexer is a class whose fields are the lexer's own. Every step is proved
to be *lossless*:

- tokens are only ever appended;
- the text the tokens carry, followed by the unconsumed buffer, never changes.

`Lex` is proved to append exactly the new source to that text, whenever the position had not run past the buffer. When a final
call returns before its fuel runs out, the tokens carry the whole input, or a
quoted scalar is still open. Each scanning loop is proved against an
independent definition of where its token ends (modules `LexerSpec` and
`JsStrings`). Examples are:

- the first closing quote of a single-quoted scalar, with `''` as an escape;
- the first quote not escaped by an odd run of backslashes;
- the end of a block scalar or of a plain scalar under the required
  indentation.

Flow depth is tracked through the state machine: a resumable lexer never has a
negative depth, and `doc` follows a closing bracket exactly when the depth
returns to zero.

The two compose functions keep their local state in a class: the loop
variables of `composeFlowCollection`, and the schema's mutable tag list. The
collaborators they call become parameters:

- `composeNode`, `directives.tagName`, a tag's `test` and `resolve`;
- the scalar resolvers' output.

Errors reported through `onError`, including those the collaborators report, are returned as a sequence in the order they are reported.

## Model

| member | source | states |
|---|---|---|
| Lexing.Lexer.constructor | src/stream/lexer.ts:99-118 | a new lexer is at the start of an empty stream: no tokens, no pending state, depth and indentation zero |
| LexerSpec.IsEmpty | src/stream/lexer.ts:81-92 | true exactly for no character, a space, a line feed, a carriage return or a tab; no such character is a flow indicator |
| LexerSpec.IsNotIdentifierChar | src/stream/lexer.ts:94-97 | true exactly for the characters `isEmpty` accepts and the flow indicators `,[]{}` |
| LexerSpec.RequiredIndent | src/stream/lexer.ts:338-339 | continuation lines of a scalar need one more space than the current indentation, or one after block indicators only, or none at the top level |
| Lexing.Lexer.Lex | src/stream/lexer.ts:127-132 | when the position was within the buffer, appends exactly the new source to the seen text; tokens only grow; a call returning with fuel left either stops awaiting more input (incomplete) or has emitted the whole input except an open quoted scalar (final); a resumable lexer never reaches a negative flow depth, and an incomplete call that returns with fuel left leaves it resumable |
| Lexing.Lexer.AtLineEnd | src/stream/lexer.ts:134-141 | true exactly when the rest of the line after spaces is empty, a comment, a line feed or a CRLF |
| Lexing.Lexer.CharAt | src/stream/lexer.ts:143-145 | the character `n` places after `pos` when that index is inside the buffer, and none (`undefined`) otherwise |
| Lexing.Lexer.GetLine | src/stream/lexer.ts:147-152 | none exactly when the buffer is not final and holds no line feed from `pos`; the line holds no line feed and, unless split inside a CRLF, is the text up to the line break |
| Lexing.Lexer.HasChars | src/stream/lexer.ts:154-156 | true exactly when `n` characters are left from `pos` |
| Lexing.Lexer.Peek | src/stream/lexer.ts:165-167 | the next `n` characters from `pos`, or fewer at the end of the buffer, or none past it |
| LexerSpec.LineAt | src/stream/lexer.ts:147-152 | no line exactly when the buffer is not final and holds no line feed from `pos`; the line holds no line feed and, unless split inside a CRLF, is the text up to the line break |
| LexerSpec.LineEndTextIsRest | src/stream/lexer.ts:257-261 | with the corrected count `line.length - n`, the text pushed at the end of a line is exactly the line after its first `n` characters |
| LexerSpec.LineEndTextRunsOver | src/stream/lexer.ts:259 | with the count `line.length` as written, the text pushed is the rest of the line followed by `n` characters after its end, so it differs from the rest of the line whenever a line break follows |
| LexerSpec.AnchoredCommentRunsOver | src/stream/lexer.ts:255-261 | for `&a #c` followed by a line `b`, the indicators end at 3, the comment pushed as written is `#c`, line feed, `b`, and the corrected one is `#c` |
| LexerSpec.DirectiveLineAt | src/stream/lexer.ts:193-195 | a line read by `getLine` that starts with `%` is the whole line at the read position, followed by its break or the end |
| Lexing.Lexer.SetNext | src/stream/lexer.ts:158-163 | drops the consumed text, rewinds to 0, records the state to resume in and leaves the seen text unchanged |
| Lexing.Lexer.ParseNext | src/stream/lexer.ts:169-190 | each state's handler is lossless, stops only with a pending state, and leads to a state whose flow depth fits it |
| Lexing.Lexer.ParseLineState | src/stream/lexer.ts:169-176 | the line-level states are lossless and keep block context consistent |
| Lexing.Lexer.ParseContentState | src/stream/lexer.ts:177-180 | the content states are lossless and lead to a state whose flow depth fits it |
| Lexing.Lexer.ParseScalarState | src/stream/lexer.ts:181-186 | the scalar states are lossless and lead to a state whose flow depth fits it |
| Lexing.Lexer.ParseStream | src/stream/lexer.ts:192-212 | awaits a whole line: without one nothing is consumed and the lexer resumes in `stream`; no token is lost and the state reached is one that may follow |
| Lexing.Lexer.StreamLine | src/stream/lexer.ts:193-211 | a `%` line yields the directive without its trailing spaces and comment first and is consumed with its break; a blank or comment line is consumed with its break; any other line starts a document with `DOCUMENT` |
| Lexing.Lexer.StreamContent | src/stream/lexer.ts:204-211 | a blank or comment line stays in `stream` and is consumed with its break; any other line pushes `DOCUMENT` first |
| Lexing.DirectiveEnd | src/stream/lexer.ts:196-198 | the directive part of a `%` line: up to ` #`, without trailing spaces, never empty for a `%` line |
| Lexing.TrimSpacesBefore | src/stream/lexer.ts:198 | the text before an index loses exactly its trailing spaces, and a line not starting with a space keeps at least one character |
| Lexing.Lexer.PushDirectiveLine | src/stream/lexer.ts:195-203 | a directive line is consumed up to and including its line break, the directive being its first token |
| Lexing.Lexer.PushDirective | src/stream/lexer.ts:196-199 | pushes the directive part, then the spaces after it, staying inside the line |
| Lexing.Lexer.PushLineRest | src/stream/lexer.ts:200-201 | on a line read at `start`, pushes exactly the rest of the line after its first `n` characters (when not empty) and its line break, and ends right after that break |
| Lexing.Lexer.PushBlankLine | src/stream/lexer.ts:204-209 | a blank or comment line is consumed up to and including its line break |
| Lexing.Lexer.StartDocument | src/stream/lexer.ts:210-211 | `DOCUMENT` is the first token pushed, then the line start is lexed |
| Lexing.Lexer.ParseLineStart | src/stream/lexer.ts:214-232 | waits for four characters at `-`/`.` on a non-final buffer, consuming nothing and resuming at the line start; otherwise it returns `doc`, `stream` or goes on at block start |
| Lexing.Lexer.LineStartContent | src/stream/lexer.ts:218-231 | `---` pushes the marker and resets indentation; `...` pushes the marker and returns to the stream; otherwise the indentation is the leading spaces plus what nested block indicators add |
| Lexing.Lexer.MarkerAt | src/stream/lexer.ts:218-225 | reports `---` or `...` exactly when those three characters are followed by white space or the end of input |
| Lexing.Lexer.ParseIndentation | src/stream/lexer.ts:229-231 | the indentation is the count of leading spaces, and block start follows |
| Lexing.Lexer.ParseBlockStart | src/stream/lexer.ts:234-249 | on `doc`: the buffer is unchanged, `pos` has only moved forward, `indentMore` grows by exactly the consumed text (the indicators and their spaces), no block indicator follows, and the indentation grows by the indicators' width once they exceed two characters; on waiting, the indentation is unchanged |
| Lexing.Lexer.ParseAfterBlockIndicator | src/stream/lexer.ts:237-241 | the recursive case: after one indicator is pushed, the same promises as `ParseBlockStart`, with the indicator's text counted in the growth of `indentMore` |
| Lexing.Lexer.PushBlockIndicator | src/stream/lexer.ts:237-241 | pushes one indicator and its spaces and appends exactly that text to `indentMore` |
| Lexing.Lexer.LastIndentMoreNonSpace | src/stream/lexer.ts:243-246 | finds the last non-space character of `indentMore`, or -1 |
| LexerSpec.IndentGain | src/stream/lexer.ts:243-247 | nested block indicators add nothing, or the index of the last non-space of `indentMore` once it is longer than two characters |
| Lexing.Lexer.ParseDocument | src/stream/lexer.ts:251-285 | awaits a whole line; the only change of flow depth is entering a collection at depth 1 with `{` or `[` as the last token |
| Lexing.Lexer.DocumentContent | src/stream/lexer.ts:255-284 | returns where the properties and indicators end; a `{`/`[` there enters flow at depth 1 as the last token, and a `}`/`]` there is pushed last and stays in `doc` |
| Lexing.Lexer.DocumentSwitch | src/stream/lexer.ts:256-284 | the same two bracket cases, for the character after the indicators |
| Lexing.Lexer.DocumentLineEnd | src/stream/lexer.ts:257-261 | as written, the tokens begin with the `line.length` characters from where the indicators end, then the line break found after them, if any; the next line start is lexed after them |
| Lexing.Lexer.DocumentBracket | src/stream/lexer.ts:262-271 | an opening bracket sets depth 1 and goes to `flow`; a closing one keeps the depth and goes to `doc`; either is the one token pushed |
| Lexing.Lexer.PushBracket | src/stream/lexer.ts:264-270 | pushes exactly the bracket character |
| Lexing.Lexer.DocumentScalar | src/stream/lexer.ts:272-283 | quoted, block and plain scalars are lexed losslessly in block context |
| Lexing.Lexer.PushBlockScalarHeader | src/stream/lexer.ts:275-280 | the header of a block scalar and the rest of its line are consumed losslessly |
| Lexing.Lexer.ParseFlowCollection | src/stream/lexer.ts:287-315 | awaits a whole line; inside a collection it leads to `doc` exactly when the depth returns to zero; the depth changes by one only with an opening or closing bracket as the last token |
| Lexing.Lexer.SkipFlowGap | src/stream/lexer.ts:288 | line breaks and spaces are pushed until neither follows |
| Lexing.Lexer.PushGap | src/stream/lexer.ts:288 | one round of the loop consumes a line break and then spaces, and consumes nothing exactly when neither follows |
| Lexing.Lexer.FlowContent | src/stream/lexer.ts:289-314 | the line's content is lexed with the depth change tied to the bracket pushed |
| Lexing.Lexer.PushComma | src/stream/lexer.ts:291 | a leading comma is pushed with the spaces after it, and nothing else is |
| Lexing.Lexer.FlowIndicated | src/stream/lexer.ts:292-314 | after the properties and indicators, the depth changes only together with the bracket pushed last; inside a collection the state is `doc` exactly when the depth reaches zero |
| Lexing.Lexer.FlowSwitch | src/stream/lexer.ts:293-314 | for the character after the indicators, `{`/`[` raises the depth by one and stays in `flow`; `}`/`]` lowers it by one and goes to `doc` exactly at depth zero |
| Lexing.Lexer.FlowLineEnd | src/stream/lexer.ts:294-298 | as written, pushes exactly the `line.length` characters from where the indicators end and then the line break found after them, if any, ends right after that, and stays in `flow` |
| Lexing.Lexer.FlowBracket | src/stream/lexer.ts:299-308 | the bracket is pushed and the depth moves by one, with the next state chosen by the new depth |
| Lexing.Lexer.FlowScalar | src/stream/lexer.ts:309-313 | a scalar inside a collection returns to `flow`, never to `doc` |
| Lexing.Lexer.ParseQuotedScalar | src/stream/lexer.ts:317-335 | at a quote: defers exactly when no closing quote is in the buffer, keeping the unconsumed text; otherwise pushes the text up to and including the closing quote, and returns to `flow` or `doc` by depth |
| Lexing.Lexer.QuotedScalarEnd | src/stream/lexer.ts:318-331 | at a quote, returns the index of the quote that closes the scalar, or -1 |
| LexerSpec.QuoteEnd | src/stream/lexer.ts:318-331 | the closing quote lies after the opening one and inside the buffer |
| Lexing.SingleQuoteSearch | src/stream/lexer.ts:319-322 | finds the first `'` after the opening one that is not half of a `''` escape |
| LexerSpec.FirstSingleClose | src/stream/lexer.ts:319-322 | the first closing single quote: an unpaired `'` after a body of non-quotes and `''` pairs, and none earlier |
| LexerSpec.SingleQuoteClosesUnique | src/stream/lexer.ts:319-322 | a single-quoted scalar has at most one closing quote |
| LexerSpec.LoneQuoteNeedsPair | src/stream/lexer.ts:321-322 | inside a single-quoted body, a quote is always the first half of a `''` pair |
| Lexing.EscapedQuoteSearch | src/stream/lexer.ts:323-331 | finds the first `"` preceded by an even number of backslashes |
| Lexing.CountBackslashes | src/stream/lexer.ts:326-327 | counts the run of backslashes right before an index |
| LexerSpec.FirstDoubleClose | src/stream/lexer.ts:325-330 | the first double quote not escaped by an odd run of backslashes, and none earlier |
| Lexing.Lexer.ParseBlockScalar | src/stream/lexer.ts:337-360 | defers, keeping the unconsumed text, when a non-final buffer ends before the scalar does; otherwise the scalar is pushed losslessly |
| Lexing.BlockScalarScan | src/stream/lexer.ts:340-355 | the scan stops where the block scalar ends |
| LexerSpec.BlockScalarStop | src/stream/lexer.ts:340-355 | a block scalar ends at the first line feed followed by a non-blank line indented by fewer than the required spaces, or at the end of the buffer |
| Lexing.Lexer.PushBlockScalar | src/stream/lexer.ts:356-358 | defers exactly when a non-final buffer ends first; otherwise pushes `SCALAR` and the text up to and including the ending line feed |
| Lexing.Lexer.ParsePlainScalar | src/stream/lexer.ts:362-390 | defers exactly when a non-final buffer ends first; otherwise pushes `SCALAR` and the text up to the end, and returns to `flow` or `doc` by depth |
| Lexing.PlainScalarScan | src/stream/lexer.ts:366-385 | the scan stops where the plain scalar ends, one short before a CRLF |
| Lexing.PlainLineFeed | src/stream/lexer.ts:369-376 | counts the spaces after a line feed; when the next line is indented enough, the scan stops where it would stop after those spaces |
| Lexing.PlainStopsAt | src/stream/lexer.ts:377-385 | at a character other than a checked line feed, the scan stops exactly where a plain scalar ends |
| LexerSpec.PlainScalarStopMeets | src/stream/lexer.ts:366-385 | the stop is a plain-scalar end that is not skipped indentation, and everything before it is either no end or skipped |
| Lexing.Lexer.PushCount | src/stream/lexer.ts:392-399 | a positive count pushes that many characters and advances by it; otherwise nothing |
| Lexing.Lexer.PushToIndex | src/stream/lexer.ts:401-409 | pushes the text from `pos` to index `i`, if it is not empty, and ends at `i` when `i` is within the buffer |
| Lexing.Lexer.PushScalar | src/stream/lexer.ts:357-358 | a `SCALAR` marker, then the text from `pos` up to the scan's index, losslessly |
| Lexing.Lexer.PushIndicators | src/stream/lexer.ts:411-430 | consumes every property and block indicator with its spaces, grows `indentMore` by spaces only, and stops where neither follows |
| Lexing.Lexer.PushProperty | src/stream/lexer.ts:413-420 | an anchor, tag or alias is consumed to the end of its name and its spaces |
| Lexing.Lexer.PushIndicatorAndSpaces | src/stream/lexer.ts:421-427 | a `:`, `?` or `-` followed by white space is consumed with its spaces |
| Lexing.Lexer.PushNewline | src/stream/lexer.ts:432-437 | pushes `\n` or `\r\n` when one follows, nothing otherwise |
| Lexing.Lexer.PushSpaces | src/stream/lexer.ts:439-448 | pushes the run of spaces at `pos` as one token when it is not empty |
| Lexing.CountSpaces | src/stream/lexer.ts:440-441 | counts the run of spaces at an index |
| Lexing.Lexer.PushUntil | src/stream/lexer.ts:450-455 | pushes up to the first character the test accepts, and no such character lies before it |
| FlowComposing.FlowComposer.constructor | src/compose/compose-flow-collection.ts:12-28 | the loop starts at the collection's offset with no key, value, properties or items |
| FlowComposing.FlowComposer.ResetProps | src/compose/compose-flow-collection.ts:30-39 | clears every pending property |
| FlowComposing.FlowComposer.SettledValue | src/compose/compose-flow-collection.ts:42-47 | the pending value, carrying the pending comment when there is one, or an empty node composed from the pending properties |
| FlowComposing.FlowComposer.SettledErrors | src/compose/compose-flow-collection.ts:42-47 | no errors with a pending value; otherwise the errors reported while composing the empty node |
| FlowComposing.NewItem | src/compose/compose-flow-collection.ts:48-58 | a map gets a pair (with no value when there is no key); a sequence gets the value, or a one-pair map when there is a key |
| FlowComposing.WithItemComment | src/compose/compose-flow-collection.ts:79-81 | the comment goes to a pair's value when it has one, else to its key, or to a sequence item's node; every other part of the item is unchanged |
| FlowComposing.MessagesAt | src/compose/compose-flow-collection.ts:95 | each message reported by `tagName` becomes an error at the current offset, in order |
| FlowComposing.FlowComposer.AddItem | src/compose/compose-flow-collection.ts:41-60 | appends exactly one item built from the key and the settled value, reports the errors of composing an empty value when there is none, then clears the properties |
| FlowComposing.FlowComposer.OnComment | src/compose/compose-flow-collection.ts:67-75 | the first comment text becomes the comment (a preceding newline sets `spaceBefore`); later ones are joined with the newlines in between |
| FlowComposing.FlowComposer.OnNewline | src/compose/compose-flow-collection.ts:76-88 | after a comma the pending comment goes to the last item's node, or is an error with no items; otherwise the newline is collected |
| FlowComposing.FlowComposer.OnAnchor | src/compose/compose-flow-collection.ts:89-92 | records the anchor name, with an error for a second anchor |
| FlowComposing.FlowComposer.OnTag | src/compose/compose-flow-collection.ts:93-98 | records the resolved non-empty tag name; the errors are a second-tag error when a tag is pending, followed by the messages `tagName` reports at the offset |
| FlowComposing.FlowComposer.OnExplicitKey | src/compose/compose-flow-collection.ts:99-103 | an error when properties come before `?` |
| FlowComposing.FlowComposer.OnMapValue | src/compose/compose-flow-collection.ts:104-128 | per case: a pending pair becomes a map key spanning both, a lone key stays, a lone value becomes the key, each taking the pending comment; with nothing pending the key is an empty node composed from the properties, which are then cleared; the value is cleared; otherwise the properties other than the comment are unchanged; the errors are the missing-braces error, or those of composing the empty key, or none |
| FlowComposing.FlowComposer.ChooseKey | src/compose/compose-flow-collection.ts:105-121 | key and value become a one-pair map key spanning both, with an error; a lone key stays; a lone value becomes the key; otherwise an empty node is the key, its composing errors are reported and the properties reset |
| FlowComposing.WrapPair | src/compose/compose-flow-collection.ts:108-110 | the map's range runs from the key's start to the value's end |
| FlowComposing.FlowComposer.OnComma | src/compose/compose-flow-collection.ts:129-134 | appends exactly one item, reports the errors of composing an empty value when there is none, and clears key, value and properties |
| FlowComposing.FlowComposer.OnNode | src/compose/compose-flow-collection.ts:135-141 | the composed node becomes the value, the errors are a missing-comma error when a value is already pending followed by the composer's own errors, and the offset moves to the node's end |
| FlowComposing.FlowComposer.Step | src/compose/compose-flow-collection.ts:62-143 | one token adds an item exactly when it is a comma; source tokens advance the offset by their length |
| FlowComposing.FlowComposer.SourceStep | src/compose/compose-flow-collection.ts:64-134 | a source token adds an item exactly when it is a comma |
| FlowComposing.FlowComposer.StructureStep | src/compose/compose-flow-collection.ts:76-134 | newline, `:` and comma keep the item kinds; only a comma adds an item |
| FlowComposing.FlowComposer.PropertyStep | src/compose/compose-flow-collection.ts:65-103 | a space changes no property; a comment is collected without touching anchor or tag; an anchor or a tag leaves the comment alone; `?` changes no property and reports an error exactly when an anchor or tag precedes it; none of them touches the key, the value or the items |
| FlowComposing.PendingMeans | src/compose/compose-flow-collection.ts:129-145 | something is pending at the end exactly when a node or `:` comes after the last comma |
| FlowComposing.ComposeFlowCollection | src/compose/compose-flow-collection.ts:6-148 | a map exactly for `{`; every item is a pair in a map and a node in a sequence; exactly one item per comma, plus one when a node or `:` follows the last comma; the range starts at the collection's offset and, without nodes, spans its tokens |
| ScalarComposing.Schema.constructor | src/doc/Schema.d.ts:5-11 | a schema holds its tag list and its known tags |
| ScalarComposing.LookupName | src/compose/compose-scalar.ts:48 | `!` stands for the string tag |
| ScalarComposing.FirstPlain | src/compose/compose-scalar.ts:50-55 | the index of the first tag with the name that is not deferred (deferred: `default` set and a `test` present), with no earlier one; none exactly when every tag with the name is deferred |
| ScalarComposing.DeferredNamedMembers | src/compose/compose-scalar.ts:50-52 | a tag is a deferred candidate exactly when it is in the list, has the name and has a default test |
| ScalarComposing.DeferredNamedAppend | src/compose/compose-scalar.ts:50-52 | the candidates of two lists one after the other are those of the first, then those of the second: schema order is kept |
| ScalarComposing.ScanTags | src/compose/compose-scalar.ts:49-55 | the loop finds the first non-deferred tag with the name, else collects the deferred ones |
| ScalarComposing.FirstPassing | src/compose/compose-scalar.ts:56 | the index of the first deferred candidate whose test accepts the value, with no earlier one; none exactly when none does |
| ScalarComposing.FirstDeferredPassing | src/compose/compose-scalar.ts:49-56 | independent definition on the tag list: the index of the first tag with the name that is deferred and whose test accepts the value, with no earlier one |
| ScalarComposing.DeferredLookup | src/compose/compose-scalar.ts:49-56 | the first passing candidate among the collected ones is the tag the independent definition finds in the list, and there is none exactly when it finds none |
| ScalarComposing.KnownCopy | src/compose/compose-scalar.ts:61 | the copy keeps the known tag's name, format and resolver, with no default and no test, so it is never deferred |
| ScalarComposing.ByName | src/compose/compose-scalar.ts:41-66 | no name means no tag and no error; otherwise the first plain tag with the name, else the first deferred one that passes, each leaving the list unchanged; only when both fail, the known tag, with one copy of it appended; else an unresolved-tag error, a warning unless it is the string tag |
| ScalarComposing.FindScalarTagByName | src/compose/compose-scalar.ts:41-66 | the method's tag, errors and new tag list are those `ByName` defines |
| ScalarComposing.FirstPlainAppend | src/compose/compose-scalar.ts:50-55 | appending tags to a list with no plain match leaves the first plain match to the appended tags |
| ScalarComposing.KnownTagAddedOnce | src/compose/compose-scalar.ts:57-63 | once a known tag is copied into the list, a second lookup finds the copy, adds nothing and reports nothing |
| ScalarComposing.FirstByTest | src/compose/compose-scalar.ts:70-72 | the index of the first default tag whose test accepts the value, and none before it |
| ScalarComposing.FindScalarTagByTest | src/compose/compose-scalar.ts:68-75 | nothing unless applied (plain scalars only); otherwise the first default tag whose test accepts the value |
| ScalarComposing.ChooseTag | src/compose/compose-scalar.ts:19-22 | with no tag name, a scalar that is not plain gets the string tag by name |
| ScalarComposing.ChooseScalarTag | src/compose/compose-scalar.ts:19-22 | the method's tag, errors and new tag list are those `ChooseTag` defines |
| ScalarComposing.StrTagAlwaysChosen | src/compose/compose-scalar.ts:19-22 | when the schema has a plain string tag, every scalar gets a tag |
| ScalarComposing.AtOffset | src/compose/compose-scalar.ts:26 | the resolver's messages are reported at the scalar's offset, in order |
| ScalarComposing.BaseScalar | src/compose/compose-scalar.ts:24-31 | the node is the resolver's node, a new node of its value, or a new node of the source string without a tag or after a throw |
| ScalarComposing.ResolveErrors | src/compose/compose-scalar.ts:25-30 | the resolver's messages at the offset, followed by the thrown message when it throws |
| ScalarComposing.ComposeScalar | src/compose/compose-scalar.ts:7-39 | the tag list is the chosen tag's; the errors are the resolver's, then the tag lookup's, then the tag's `resolve` messages and thrown message; the range covers the token; type, tag, format and comment are set only when present |
| Directives.Trim | src/cst/Directive.js:13 | the result is the middle of the string: everything before and after it is JavaScript white space, and it neither starts nor ends with white space |
| Directives.TrimStart | src/cst/Directive.js:13 | a suffix of the string, everything before it white space, and not starting with white space |
| Directives.TrimEnd | src/cst/Directive.js:13 | a prefix of the string, everything after it white space, and not ending with white space |
| Directives.Split | src/cst/Directive.js:13 | at least one piece, none holding a space or tab |
| Directives.Parameters | src/cst/Directive.js:11-14 | no parameters for a missing or empty raw value; no piece holds a space or tab; a white-space-only raw value gives one empty parameter |
| Directives.SplitKeepsText | src/cst/Directive.js:13 | the pieces written together are the string without its spaces and tabs |
| Directives.SplitPiecesNonEmpty | src/cst/Directive.js:13 | a string that neither starts nor ends with a separator splits into non-empty pieces |
| Directives.ParametersNonEmpty | src/cst/Directive.js:11-14 | when the trimmed raw value is not empty, every parameter is non-empty |
| Directives.ParametersKeepText | src/cst/Directive.js:11-14 | the parameters written together are the trimmed raw value without its spaces and tabs |
| Directives.Directive.constructor | src/cst/Directive.js:6-9 | a new directive has no name |
| Directives.Directive.ParseName | src/cst/Directive.js:16-24 | the name runs from `start` to the first line feed, tab, space or end of source, and holds none of them |
| Directives.Directive.ParseParameters | src/cst/Directive.js:26-33 | the value range runs from `start` to the first line feed, `#` or end of source |
| Directives.Directive.Parse | src/cst/Directive.js:35-42 | the name follows the `%`, the parameters follow the name, and the node's range runs from `start` to where the comment ends |

## Left out

- Lex: the loop of `lex` is bounded by a `fuel` parameter, so the model does not prove that it terminates; the claims about a completed call hold when it returns with fuel left.
- Lexing.Lexer.Lex: after a final call the pending state is not brought up to date, so the model claims the lexer stays resumable only after an incomplete call that returns with fuel left.
- Lexing.Lexer.Lex: the end-of-line branches push `line.length` characters as the source does (see Findings), so `pos` can run past the end of the buffer, as it does in the source; a later `Lex` then makes no claim about the seen text, since the source's `substring(pos)` drops what was appended.
- Lexing.Lexer.DocumentLineEnd: states the tokens it pushes before lexing the next line start, not where `pos` ends, because the line start it goes on to lex moves `pos` again.
- `push` is modelled as a token sequence the lexer appends to, not as a callback.
- Lexing.Lexer.ParseLineStart: states only the wait for a whole marker itself. The marker and indentation claims are proved on `LineStartContent`.
- Lexing.Lexer.ParseStream: states no claim per kind of line itself. Those are proved on `StreamLine` and `StreamContent`.
- Lexing.Lexer.ParseDocument: its bracket claims, stated in terms of the character after the indicators, are proved on `DocumentContent` and `DocumentSwitch` rather than on it.
- Lexing.Lexer.FlowContent: states only the depth change tied to the last token. The bracket-by-character claims are proved on `FlowSwitch`.
- Lexing.Lexer.FlowIndicated: states only the depth change tied to the last token. The bracket-by-character claims are proved on `FlowSwitch`, which receives the offset where the indicators end.
- Lexing.Lexer.PushBlockScalarHeader: states only that the header is consumed losslessly, not the tokens it pushes.
- Lexing.Lexer.ParseQuotedScalar: its claims about the closing quote hold when the state is entered at a quote, which is the only way the lexer enters it.
- Lexing.Lexer.ParseBlockScalar: the tokens it pushes are stated on `PushBlockScalar`, which it calls.
- An unterminated quoted scalar on a final buffer is deferred as the code does, so a final `Lex` may leave that text unemitted.
- The `Unknown state` exception of `parseNext` cannot arise: `State` has exactly the eight states.
- `composeNode`, `doc.directives.tagName`, `doc.anchors.setAnchor`, a tag's `test` regular expression and `resolve` function, and the resolvers `resolveBlockScalar`/`resolveFlowScalar` are parameters. In the compose-scalar model the resolvers are their result record, `Resolved`. What `composeNode`, `tagName` and the resolvers report through `onError` is part of their result and is appended to the errors where the source calls them.
- `composeNode` is assumed to give every node a range (`ComposerRanged`), as the source's flow-collection code does when it reads `value.range[1]`.
- Nodes of the flow collection are modelled as values, so setting `value.comment` or `key.comment` builds a new node. The model does not capture aliasing between a node in `items` and the pending key or value.
- The error `Error adding trailing comment to node` (src/compose/compose-flow-collection.ts:82) arises in the model only when no item has been added. `OnNewline` reports it there. With an item present the node is always a `Node`, because every pair has a key.
- `{ ? : 123 }`: the model follows the code, which composes an empty node as the key. The corner-case test in __tests__/corner-cases.js:21-27 shows a different expectation.
- ScalarComposing.KnownTagAddedOnce: assumes the known tags are filed under their own names (`KnownByName`).
- The `Pair` constructor is assumed to take a key and an optional value, so `new Pair(value)` is a pair with that key and no value. src/ast/Pair is not part of this model.
- `rawValue`, `parseComment` and `context` of the CST `Node` base class are parameters or fields of `Directive`. src/cst/Node.js is not part of this model.
- The `warning` flag that `onError` takes in src/compose/compose-flow-collection.ts:10 is not modelled there: the flow-collection errors carry an offset and a message only.
- JavaScript's `trim` is modelled on the white-space and line-terminator characters it removes, as single UTF-16 code units.

## Findings

| source | as written | input that shows it | evidently intended | confidence | as-written member | corrected member |
|---|---|---|---|---|---|---|
| src/stream/lexer.ts:259 | after `pushIndicators` has consumed `n` characters of the line, the comment and end-of-line branches of `parseDocument` (this line) and `parseFlowCollection` (line 296) call `pushCount(line.length)`, which pushes `n` characters too many, over the line break and into the next line | `&a #c` followed by a line feed and `b`: the indicators end at 3 and the comment token becomes `#c`, line feed, `b` | `pushCount(line.length - n)`, as the block scalar branch at src/stream/lexer.ts:279 and the directive branch at :200 do, pushing exactly `#c`; the model keeps the code as written in the lexer and proves the intended count on the shared end-of-line step `PushLineRest` | not executed | LexerSpec.LineEndTextRunsOver, LexerSpec.AnchoredCommentRunsOver, Lexing.Lexer.DocumentLineEnd, Lexing.Lexer.FlowLineEnd | LexerSpec.LineEndTextIsRest, Lexing.Lexer.PushLineRest |
