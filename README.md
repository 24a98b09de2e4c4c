# saba renderer core in Dafny

This project models the renderer at the heart of the saba toy browser engine, and proves properties of the model.

- **HTML tree construction.** An insertion-mode state machine turns HTML tokens into a DOM.
- **DOM.** Nodes, elements and the queries over them.
- **CSS.** A tokenizer, a parser into a CSS object model (selectors, declarations, rules, stylesheet) and the cascade.
- **Layout.** A layout tree is built from the DOM and the stylesheet. Its sizes and positions are computed, and it is painted in preorder.
- **JavaScript subset.** A lexer, a recursive-descent parser into an AST, and a tree-walking evaluator with variable scopes.

Each source file is one module:

| Module | Source file | What it holds |
|---|---|---|
| `Wrappers` | — | `Option` and `Result`, shared by all files. |
| `DomElement` | `dom/element.rs` | Element kinds and the element record. |
| `DomNode` | `dom/node.rs` | DOM nodes and their arena. |
| `DomApi` | `dom/api.rs` | The element search and the style-content query. |
| `HtmlParser` | `html/parser.rs` | Tree construction. |
| `CssTokens` | `css/token.rs` | The CSS tokenizer. |
| `Cssom` | `css/cssom.rs` | The CSS object model. |
| `CssParser` | `css/parser.rs` | The stylesheet parser. |
| `LayoutObject` | `layout/layout_object.rs` | Layout objects, selector matching, the cascade, size and position. |
| `LayoutView` | `layout/layout_view.rs` | Building the layout tree, the layout passes and painting. |
| `JsTokens` | `js/token.rs` | The JavaScript lexer. |
| `JsAst` | `js/ast.rs` | The JavaScript parser. |
| `JsRuntime` | `js/runtime.rs` | The JavaScript evaluator. |

The `*Examples` modules replay the source's unit tests, at the level the model reaches.

The source's objects are mutated in place, so the model follows one pattern throughout:

1. Each mutable object is a `class` with the source's fields, for example:
   - the HTML parser with its window and stack of open elements;
   - the CSS tokenizer and parser with their cursors;
   - the layout arena;
   - the JS lexer, parser, environment and runtime.
2. Every method of the class is proved to leave the object in exactly the state that a pure specification function computes from the old state.
3. The properties are proved as lemmas about those functions.

The source shares nodes through reference-counted cells, and the model replaces them with arenas:

- **DOM.** A DOM is a sequence of nodes addressed by index. Index 0 is the Document that the window holds.
- **Layout tree.** The layout tree is a sequence of layout objects in the same way.
- **Links.** Every link (parent, first or last child, previous or next sibling) is an index.
- **Well-formed arenas.** In a well-formed arena, child and next-sibling links point forward and parent and previous-sibling links point backward. This is what makes every walk over the tree terminate.

Where the source panics (`unwrap`, `assert!`, `unimplemented!`, an out-of-range index) or loops forever, the model returns an explicit error. Infinite loops give the `Diverges` error.

## Model

| member | source | states |
|---|---|---|
| DomElement.KindFromStr | saba_core/src/renderer/dom/element.rs:58-71 | Succeeds exactly for the nine supported tag names (html, head, style, script, body, p, h1, h2, a). Any other name is an error that carries the name. |
| DomElement.KindToString | saba_core/src/renderer/dom/element.rs:75-88 | The display name of a kind is a supported name that parses back to the same kind. |
| DomElement.DisplayOfParsedName | saba_core/src/renderer/dom/element.rs:58-88 | Parsing a name and then displaying the kind gives the name back. |
| DomElement.KindToStringInjective | saba_core/src/renderer/dom/element.rs:75-88 | Different kinds have different display names. |
| DomElement.NewElement | saba_core/src/renderer/dom/element.rs:15-21 | The element's kind is the one its name parses to, and its attributes are the ones given. |
| DomElement.BlockElementKinds | saba_core/src/renderer/dom/element.rs:27-35 | An element is a block element exactly when it is body, h1, h2 or p. |
| DomNode.NewNode | saba_core/src/renderer/dom/node.rs:57-67 | A new node has the given kind and no parent, children or siblings. |
| DomNode.Children | saba_core/src/renderer/dom/node.rs:81-114 | The first child and its following siblings. ChildrenAscend states their order. |
| DomNode.ChildrenAscend | saba_core/src/renderer/dom/node.rs:81-114 | The children of a node come after it in the arena, in strictly increasing order, so none appears twice. |
| DomNode.ChainAscends | saba_core/src/renderer/dom/node.rs:108-114 | A sibling chain starts at its link and only moves forward in the arena. |
| DomNode.GetElement | saba_core/src/renderer/dom/node.rs:120-125 | Gives an element exactly for element nodes, and then the node's own element. |
| DomNode.ElementKindOf | saba_core/src/renderer/dom/node.rs:127-132 | Gives a kind exactly for element nodes, and then that element's kind. |
| DomNode.KindEqIsEquivalence | saba_core/src/renderer/dom/node.rs:22-33 | Node-kind equality is reflexive, symmetric and transitive. |
| DomNode.NodeEqIgnores | saba_core/src/renderer/dom/node.rs:135-139 | Node equality depends only on the kinds. Any two text nodes are equal. Element nodes are equal exactly when their element kinds are (attributes are ignored). |
| DomNode.ReplaceKeepsValid | saba_core/src/renderer/dom/node.rs:69-114 | Replacing a node with one whose links keep the arena's ordering keeps the arena well formed. |
| DomNode.AppendKeepsValid | saba_core/src/renderer/dom/node.rs:57-67 | Appending a non-document node whose links are ordered keeps the arena well formed. |
| DomNode.LastSibling | saba_core/src/renderer/html/parser.rs:155-169 | The walk along next_sibling ends at a node with no next sibling, and that node is the last of the sibling chain. |
| DomNode.LastSiblingOnChain | saba_core/src/renderer/html/parser.rs:155-169 | The last sibling found is on the chain that starts at the first child. |
| DomNode.ChainExtended | saba_core/src/renderer/html/parser.rs:171-181 | Linking a new node after the last sibling extends the sibling chain by exactly that node. |
| DomNode.NodeArena.constructor | saba_core/src/renderer/dom/window.rs:12-24 | A new window holds only the Document node, and the arena is well formed. |
| DomNode.NodeArena.Append | saba_core/src/renderer/dom/node.rs:57-67 | Appends a fresh node of the given kind and returns its handle. No other node changes. |
| DomNode.NodeArena.SetParent | saba_core/src/renderer/dom/node.rs:73-75 | Changes only the parent link of the one node. |
| DomNode.NodeArena.SetFirstChild | saba_core/src/renderer/dom/node.rs:81-83 | Changes only the first-child link of the one node. |
| DomNode.NodeArena.SetLastChild | saba_core/src/renderer/dom/node.rs:89-91 | Changes only the last-child link of the one node. |
| DomNode.NodeArena.SetPreviousSibling | saba_core/src/renderer/dom/node.rs:97-102 | Changes only the previous-sibling link of the one node. |
| DomNode.NodeArena.SetNextSibling | saba_core/src/renderer/dom/node.rs:108-110 | Changes only the next-sibling link of the one node. |
| DomNode.NodeArena.SetKind | saba_core/src/renderer/html/parser.rs:104-108 | Changes only the kind of the one node (the text a character is pushed onto). |
| DomApi.FirstOfKind | saba_core/src/renderer/dom/api.rs:12-42 | A node it finds is in the given order and has the wanted element kind. |
| DomApi.FirstOfKindIsFirst | saba_core/src/renderer/dom/api.rs:12-42 | Finds a node exactly when some node in the order matches, and the one found comes before every other match. |
| DomApi.FirstOfKindAppend | saba_core/src/renderer/dom/api.rs:12-42 | Searching a concatenation gives the first order's match if it has one, and otherwise the second order's. |
| DomApi.MatchesFreshElement | saba_core/src/renderer/dom/api.rs:18-23 | Comparing a node with a fresh element of a kind is the same as comparing its element kind with that kind. |
| DomApi.FindElement | saba_core/src/renderer/dom/api.rs:12-42 | A node the depth-first search returns is at or after the starting handle and has the wanted kind. |
| DomApi.FindElementIsFirstInPreorder | saba_core/src/renderer/dom/api.rs:12-42 | The search (node, then first child, then next sibling) finds the first match in preorder. |
| DomApi.SearchStep | saba_core/src/renderer/dom/api.rs:12-42 | One step of the search agrees with preorder, given that the searches below the node and after it do. |
| DomApi.GetStyleContent | saba_core/src/renderer/dom/api.rs:45-62 | The text of the first child of the first style element in preorder. It is empty when there is no style element, or when that child is missing or is not text. |
| HtmlParser.InitialState | saba_core/src/renderer/html/parser.rs:39-47 | The state of a new parser (only the Document, an empty stack, mode Initial) is well formed. |
| HtmlParser.PopUntilStack | saba_core/src/renderer/html/parser.rs:60-77 | Popping the stack leaves a prefix of it. |
| HtmlParser.PopUntilRemovesTopmost | saba_core/src/renderer/html/parser.rs:60-77 | When the kind is on the stack, the pop removes the topmost element of that kind and everything above it, and no element of that kind was above it. |
| HtmlParser.PoppedUntil | saba_core/src/renderer/html/parser.rs:60-77 | Succeeds exactly when the kind is on the stack, and then changes only the stack. Otherwise it is the failure of the source's assertion. |
| HtmlParser.PoppedCurrent | saba_core/src/renderer/html/parser.rs:79-90 | Pops exactly when the top of the stack is an element of the kind. Otherwise the state is unchanged. |
| HtmlParser.InsertionParent | saba_core/src/renderer/html/parser.rs:140-143 | The parent of a new element is a node of the arena: the top of the stack, or the Document when the stack is empty. |
| HtmlParser.WithChar | saba_core/src/renderer/html/parser.rs:98-131 | Inserting a character keeps the state well formed and keeps the mode. |
| HtmlParser.LinkNewText | saba_core/src/renderer/html/parser.rs:116-127 | A new text node becomes the first child when there is none. Otherwise it becomes the next sibling of the first child (the source's link, which can drop later siblings). |
| HtmlParser.WithElement | saba_core/src/renderer/html/parser.rs:137-183 | Inserting an element keeps the state well formed and keeps the mode. |
| HtmlParser.LinkNewElement | saba_core/src/renderer/html/parser.rs:150-181 | A new element becomes the first child, or the next sibling of the last sibling with that sibling as its previous sibling. |
| HtmlParser.InitialStep | saba_core/src/renderer/html/parser.rs:191-204 | The Initial mode step keeps the state well formed. When it hands the token on without reading it, the new mode ranks lower, so the loop terminates. |
| HtmlParser.BeforeHtmlStep | saba_core/src/renderer/html/parser.rs:205-245 | As for Initial, for the BeforeHtml mode. |
| HtmlParser.BeforeHtmlSkipsEndTags | saba_core/src/renderer/html/parser.rs:222-230 | The end-tag test there is a disjunction of inequalities that always holds, so every end tag is skipped. |
| HtmlParser.BeforeHeadStep | saba_core/src/renderer/html/parser.rs:246-275 | As for Initial, for the BeforeHead mode. |
| HtmlParser.InHeadStep | saba_core/src/renderer/html/parser.rs:276-327 | As for Initial, for the InHead mode. |
| HtmlParser.AfterHeadStep | saba_core/src/renderer/html/parser.rs:328-359 | As for Initial, for the AfterHead mode. |
| HtmlParser.InBodyStep | saba_core/src/renderer/html/parser.rs:360-427 | As for Initial, for the InBody mode. |
| HtmlParser.TextStep | saba_core/src/renderer/html/parser.rs:428-453 | As for Initial, for the Text mode. |
| HtmlParser.AfterBodyStep | saba_core/src/renderer/html/parser.rs:454-474 | As for Initial, for the AfterBody mode. |
| HtmlParser.AfterAfterBodyStep | saba_core/src/renderer/html/parser.rs:475-491 | As for Initial, for the AfterAfterBody mode. |
| HtmlParser.ParseStep | saba_core/src/renderer/html/parser.rs:186-493 | Each step keeps the state well formed. The loop stops exactly at end of file in any mode but Initial. |
| HtmlParser.Run | saba_core/src/renderer/html/parser.rs:186-493 | The loop terminates, and a tree it returns is well formed. |
| HtmlParser.BuildTree | saba_core/src/renderer/html/parser.rs:186-493 | A document the parser builds is a well-formed arena. |
| HtmlParser.WithElementAppendsChild | saba_core/src/renderer/html/parser.rs:137-183 | The new element is pushed and becomes the last child of its parent. Its previous sibling is the parent's former last child, and the parent's children are the old ones followed by it. |
| HtmlParser.WithElementLeavesOthers | saba_core/src/renderer/html/parser.rs:137-183 | No node other than the insertion parent, its old last child and the new node changes. |
| HtmlParser.WithCharStartsText | saba_core/src/renderer/html/parser.rs:98-131 | A non-blank character under a non-text node starts a text node of that character. The parent's children become the new node alone, or its first child and the new node. No node other than the current node and its first child changes. |
| HtmlParser.WithCharExtendsText | saba_core/src/renderer/html/parser.rs:104-108 | A character under a text node is appended to its text, and nothing else changes. |
| HtmlParser.WithCharNoOp | saba_core/src/renderer/html/parser.rs:98-113 | With no current node, or with a space or newline while the current node is not a text node, the state is unchanged. |
| HtmlParser.HtmlParser.constructor | saba_core/src/renderer/html/parser.rs:39-47 | A new parser is in the initial state over the given tokens. |
| HtmlParser.HtmlParser.ContainInStack | saba_core/src/renderer/html/parser.rs:49-58 | The answer is whether an element of the kind is on the stack. |
| HtmlParser.HtmlParser.PopUntil | saba_core/src/renderer/html/parser.rs:60-77 | The new state is the popped state, or the error when the kind is not on the stack. |
| HtmlParser.HtmlParser.PopCurrentNode | saba_core/src/renderer/html/parser.rs:79-90 | The answer is whether the top is of the kind, and the new state is the popped one. |
| HtmlParser.HtmlParser.InsertChar | saba_core/src/renderer/html/parser.rs:98-131 | The parser's new state is the one WithChar specifies. |
| HtmlParser.HtmlParser.InsertElement | saba_core/src/renderer/html/parser.rs:137-183 | The parser's new state is the one WithElement specifies. |
| HtmlParser.HtmlParser.InitialMode | saba_core/src/renderer/html/parser.rs:191-204 | Performs InitialStep in place. |
| HtmlParser.HtmlParser.BeforeHtmlMode | saba_core/src/renderer/html/parser.rs:205-245 | Performs BeforeHtmlStep in place. |
| HtmlParser.HtmlParser.BeforeHeadMode | saba_core/src/renderer/html/parser.rs:246-275 | Performs BeforeHeadStep in place. |
| HtmlParser.HtmlParser.InHeadMode | saba_core/src/renderer/html/parser.rs:276-327 | Performs InHeadStep in place. |
| HtmlParser.HtmlParser.AfterHeadMode | saba_core/src/renderer/html/parser.rs:328-359 | Performs AfterHeadStep in place. |
| HtmlParser.HtmlParser.InBodyMode | saba_core/src/renderer/html/parser.rs:360-427 | Performs InBodyStep in place. |
| HtmlParser.HtmlParser.TextMode | saba_core/src/renderer/html/parser.rs:428-453 | Performs TextStep in place. |
| HtmlParser.HtmlParser.AfterBodyMode | saba_core/src/renderer/html/parser.rs:454-474 | Performs AfterBodyStep in place. |
| HtmlParser.HtmlParser.AfterAfterBodyMode | saba_core/src/renderer/html/parser.rs:475-491 | Performs AfterAfterBodyStep in place. |
| HtmlParser.HtmlParser.ProcessToken | saba_core/src/renderer/html/parser.rs:186-493 | One pass of the loop performs ParseStep. |
| HtmlParser.HtmlParser.ConstructTree | saba_core/src/renderer/html/parser.rs:186-493 | Returns the window exactly when Run succeeds, holding Run's tree. Otherwise it returns Run's error. |
| HtmlParserExamples.SkeletonRun | saba_core/src/renderer/html/parser.rs:512-557 | html, head, /head and body lead to InBody with the html, head and body nodes linked. |
| HtmlParserExamples.EmptyDocument | saba_core/src/renderer/html/parser.rs:503-510 | No input gives a document with no children. |
| HtmlParserExamples.BodyDocument | saba_core/src/renderer/html/parser.rs:512-557 | A document with html, head and body has html under the document, and head and body as siblings under html. |
| HtmlParserExamples.TextDocument | saba_core/src/renderer/html/parser.rs:617-671 | The text "test" in body becomes a text node below the body element. |
| HtmlParserExamples.StyleDocument | saba_core/src/renderer/html/parser.rs:559-615 | A style element in head holds the text "test" as its only child. Body follows head under html. |
| HtmlParserExamples.UnopenedEndTagFails | saba_core/src/renderer/html/parser.rs:60-77 | An end tag p with no p open is the assertion failure of pop_until. |
| CssTokens.Stop | saba_core/src/renderer/css/token.rs:58-81 | The loop scanning a class of characters stops at the first position outside the class, or at the end. |
| CssTokens.StopAt | saba_core/src/renderer/css/token.rs:58-81 | The scan stops at any given position that ends a run of the class. |
| CssTokens.AsWrittenFraction | saba_core/src/renderer/css/token.rs:66-69 | As written, "1.5" reads as 6.5; the intended reading is 1.5. |
| CssTokens.ScanInteger | saba_core/src/renderer/css/token.rs:70-72 | Digits before the point accumulate as a decimal integer. |
| CssTokens.ScanFraction | saba_core/src/renderer/css/token.rs:66-69 | Digits after the point add their decimal fraction (corrected weight). |
| CssTokens.IntegerValue | saba_core/src/renderer/css/token.rs:52-83 | A run of digits reads as its integer value. |
| CssTokens.DecimalValue | saba_core/src/renderer/css/token.rs:52-83 | Digits, a point and digits read as the integer part plus the fraction (corrected weight). |
| CssTokens.FractionIsDecimal | saba_core/src/renderer/css/token.rs:52-83 | The fraction of k digits, multiplied by 10^k, is the digits' integer value. |
| CssTokens.Scan | saba_core/src/renderer/css/token.rs:52-83 | The digit loop of `consume_numeric_token`, with the corrected fraction weight. Its meaning is stated by IntegerValue, DecimalValue and FractionIsDecimal. |
| CssTokens.NumberValue | saba_core/src/renderer/css/token.rs:52-83 | The number a digit run reads as, with the corrected fraction weight. IntegerValue and DecimalValue state its value. |
| CssTokens.AsWrittenScan | saba_core/src/renderer/css/token.rs:52-83 | The digit loop as written, whose fraction weight grows by 1/10 per digit. AsWrittenFraction states what it reads. |
| CssTokens.AsWrittenNumber | saba_core/src/renderer/css/token.rs:52-83 | The number a digit run reads as, as written. AsWrittenFraction shows "1.5" reading as 6.5. |
| CssTokens.IdentEnd | saba_core/src/renderer/css/token.rs:85-102 | Ends at the first character after the start that cannot be in an identifier. When the input ends first, reading past it is an error. |
| CssTokens.StringAt | saba_core/src/renderer/css/token.rs:34-50 | A string token is the text between two quotes and contains no quote. It is an error exactly when no closing quote follows. |
| CssTokens.TokenAt | saba_core/src/renderer/css/token.rs:114-175 | A token there consumes at least one character. |
| CssTokens.NextToken | saba_core/src/renderer/css/token.rs:108-177 | Blanks are skipped. There is no token exactly when only blanks remain, and a token consumes input. |
| CssTokens.IdentShape | saba_core/src/renderer/css/token.rs:145-170 | An identifier token is a non-empty run of identifier characters starting with a letter, '_' or '-', followed by a character that ends it. |
| CssTokens.HashKeepsSign | saba_core/src/renderer/css/token.rs:140-144 | A hash token's text keeps its leading '#'. |
| CssTokens.AtKeywordShape | saba_core/src/renderer/css/token.rs:150-165 | An at-keyword follows '@', starts with three letters, and is the text after the sign. |
| CssTokens.SkipSpaces | saba_core/src/renderer/css/token.rs:125-128 | Blanks before a token do not change the token read. |
| CssTokens.EndOfTokens | saba_core/src/renderer/css/token.rs:110-112 | The tokenizer is exhausted exactly when only blanks remain. |
| CssTokens.PunctuatorToken | saba_core/src/renderer/css/token.rs:117-124 | Each of ( ) , . : ; { } is a one-character token. |
| CssTokens.IdentToken | saba_core/src/renderer/css/token.rs:166-170 | An identifier start followed by identifier characters reads as that identifier. |
| CssTokens.HashTokenAt | saba_core/src/renderer/css/token.rs:140-144 | '#' followed by identifier characters reads as a hash token including the sign. |
| CssTokens.IdentAtEnd | saba_core/src/renderer/css/token.rs:85-102 | An identifier that runs to the end of the input is not returned: the scan indexes past the end (a panic in the source). |
| CssTokens.StringTokenAt | saba_core/src/renderer/css/token.rs:129-132 | A quoted text reads as a string token without its quotes. |
| CssTokens.AtSignBoundCheck | saba_core/src/renderer/css/token.rs:152-155 | '@' with two letters at the end of the input passes the length check and then indexes past the end. |
| CssTokens.DigitToken | saba_core/src/renderer/css/token.rs:133-137 | A digit starts a number token over the run of digits and points. |
| CssTokens.IntegerToken | saba_core/src/renderer/css/token.rs:133-137 | A run of digits not followed by a point reads as its integer value. |
| CssTokens.IntegerPrefix | saba_core/src/renderer/css/token.rs:52-83 | Characters after the digit run do not change the number. |
| CssTokens.UnsupportedCharacter | saba_core/src/renderer/css/token.rs:171 | Any other character is unsupported (unimplemented! in the source). |
| CssTokens.TokenizeStep | saba_core/src/renderer/css/token.rs:108-177 | The token stream is the next token followed by the stream after it. |
| CssTokens.Tokenize | saba_core/src/renderer/css/token.rs:108-177 | At most one token per remaining character. Only blanks remaining give no tokens. |
| CssTokens.CssTokenizer.constructor | saba_core/src/renderer/css/token.rs:27-32 | A new tokenizer is at position 0 of the input. |
| CssTokens.CssTokenizer.ConsumeStringToken | saba_core/src/renderer/css/token.rs:34-50 | Returns the text up to the closing quote and stops on the quote. It fails when none follows. |
| CssTokens.CssTokenizer.ConsumeNumericToken | saba_core/src/renderer/css/token.rs:52-83 | Returns the number of the digit run (corrected weight) and stops at its end. |
| CssTokens.CssTokenizer.ConsumeIdentToken | saba_core/src/renderer/css/token.rs:85-102 | Returns the identifier IdentEnd delimits and stops on the character ending it, or returns IdentEnd's error. |
| CssTokens.CssTokenizer.Next | saba_core/src/renderer/css/token.rs:108-177 | Returns the token NextToken specifies and moves the cursor to where it says. |
| CssTokens.CssTokenizer.ReadToken | saba_core/src/renderer/css/token.rs:114-175 | Reads the token TokenAt specifies. |
| CssTokens.CssTokenizer.ReadIdentLike | saba_core/src/renderer/css/token.rs:140-170 | Reads an identifier, hash or at-keyword token as IdentLike specifies. |
| CssTokens.CssTokenizer.ReadAtSign | saba_core/src/renderer/css/token.rs:150-165 | Reads an at-keyword or the '@' delimiter as AtSign specifies. |
| CssTokenExamples.RuleTokenize | saba_core/src/renderer/css/parser.rs:208-224 | "p {color: red;}" tokenizes to p, {, color, :, red, ;, }. |
| Cssom.Declaration.SetProperty | saba_core/src/renderer/css/cssom.rs:50-52 | Sets the property and keeps the value. |
| Cssom.Declaration.SetValue | saba_core/src/renderer/css/cssom.rs:54-56 | Sets the value and keeps the property. |
| Cssom.NewDeclaration | saba_core/src/renderer/css/cssom.rs:43-48 | A new declaration has an empty property and an empty identifier as its value. |
| Cssom.QualifiedRule.SetSelector | saba_core/src/renderer/css/cssom.rs:79-81 | Sets the selector and keeps the declarations. |
| Cssom.QualifiedRule.SetDeclarations | saba_core/src/renderer/css/cssom.rs:83-85 | Sets the declarations and keeps the selector. |
| Cssom.NewQualifiedRule | saba_core/src/renderer/css/cssom.rs:72-77 | A new rule has the empty type selector and no declarations. |
| Cssom.StyleSheet.SetRules | saba_core/src/renderer/css/cssom.rs:99-101 | Sets the rules. |
| Cssom.NewStyleSheet | saba_core/src/renderer/css/cssom.rs:95-97 | A new stylesheet has no rules. |
| Cssom.SettersOverwrite | saba_core/src/renderer/css/cssom.rs:50-85 | Setting a field twice keeps the second value, and setting different fields commutes. |
| CssParser.Prefixed | saba_core/src/renderer/css/parser.rs:28-55 | Putting nothing in front of a result leaves it unchanged. |
| CssParser.PrefixedTwice | saba_core/src/renderer/css/parser.rs:28-55 | Putting two prefixes in front is putting their concatenation. |
| CssParser.SkipToBlock | saba_core/src/renderer/css/parser.rs:68-76 | Stops at the first '{'. When none follows, the source's loop spins forever (Diverges). |
| CssParser.IdentAt | saba_core/src/renderer/css/parser.rs:172-184 | Succeeds exactly on an identifier token and returns its text. Otherwise it is the source's panic, distinguishing a missing token from an unexpected one. |
| CssParser.SelectorAt | saba_core/src/renderer/css/parser.rs:81-120 | A hash gives an id selector without the '#'. '.' and an identifier give a class selector. A tag gives a type selector, and after "tag:" tokens up to the block are skipped. An at-keyword is unknown and skips to the block. Other delimiters are errors, and any other token is unknown, taking the next token with it. |
| CssParser.DeclaredWithinWiden | saba_core/src/renderer/css/parser.rs:122-150 | Declarations read after a position were also read after any earlier one. |
| CssParser.DeclarationAt | saba_core/src/renderer/css/parser.rs:152-170 | A declaration is read exactly from "ident : value" and uses three tokens. It fails exactly when the token is not an identifier, or when the value is missing after the colon. |
| CssParser.DeclarationsAt | saba_core/src/renderer/css/parser.rs:122-150 | The declaration loop ends after '}' or at the end of the input, and every declaration it returns is read from the tokens in between. |
| CssParser.QualifiedRuleAt | saba_core/src/renderer/css/parser.rs:57-79 | A rule read consumes input. Running out of input before a block gives no rule. |
| CssParser.RulesAt | saba_core/src/renderer/css/parser.rs:28-55 | The rule loop reads to the end of the input. |
| CssParser.Stylesheet | saba_core/src/renderer/css/parser.rs:20-26 | Succeeds exactly when the rule loop does. No tokens give the empty stylesheet. |
| CssParser.ParseCss | saba_core/src/renderer/page.rs:82-83 | A blank style text gives the empty stylesheet. |
| CssParser.SelectorOverwritten | saba_core/src/renderer/css/parser.rs:57-79 | The rule's earlier selector does not matter: it is overwritten. |
| CssParser.SelectorThenBlock | saba_core/src/renderer/css/parser.rs:57-79 | A selector followed by '{' and a declaration list makes a rule of the two. |
| CssParser.DeclarationThenRest | saba_core/src/renderer/css/parser.rs:122-150 | A declaration is followed in the list by the declarations after it. |
| CssParser.DeclarationsReadBack | saba_core/src/renderer/css/parser.rs:122-150 | Conversely, a block body of well-formed declarations each ended by ';' is read back whole and in order, up to '}' or the end of the input. |
| CssParser.DeclarationSkipped | saba_core/src/renderer/css/parser.rs:122-150 | A token that is neither '}' nor an identifier is skipped. |
| CssParser.AtRuleDropped | saba_core/src/renderer/css/parser.rs:36-44 | A rule that starts with an at-keyword is read and dropped. |
| CssParser.RuleKept | saba_core/src/renderer/css/parser.rs:45-52 | Any other rule is kept in front of the rules after it. |
| CssParser.NoBlockNoRule | saba_core/src/renderer/css/parser.rs:57-79 | With no '{' left, no rule is produced. |
| CssParser.CssParser.constructor | saba_core/src/renderer/css/parser.rs:16-18 | A new parser is at the first token. |
| CssParser.CssParser.Peek | saba_core/src/renderer/css/parser.rs:16-18 | Peeking gives the current token, or nothing at the end. |
| CssParser.CssParser.Advance | saba_core/src/renderer/css/parser.rs:16-18 | Advancing returns the current token and moves past it, or returns nothing at the end. |
| CssParser.CssParser.ParseStylesheet | saba_core/src/renderer/css/parser.rs:20-26 | The result is the stylesheet Stylesheet specifies. |
| CssParser.CssParser.ConsumeListOfRules | saba_core/src/renderer/css/parser.rs:28-55 | Agrees with RulesAt on the result and the new position. |
| CssParser.CssParser.ConsumeQualifiedRule | saba_core/src/renderer/css/parser.rs:57-79 | Agrees with QualifiedRuleAt on the result and the new position. |
| CssParser.CssParser.SkipToOpenCurly | saba_core/src/renderer/css/parser.rs:68-76 | Agrees with SkipToBlock. |
| CssParser.CssParser.ConsumeSelector | saba_core/src/renderer/css/parser.rs:81-120 | Agrees with SelectorAt. |
| CssParser.CssParser.ConsumeListOfDeclarations | saba_core/src/renderer/css/parser.rs:122-150 | Agrees with DeclarationsAt. |
| CssParser.CssParser.ConsumeDeclaration | saba_core/src/renderer/css/parser.rs:152-170 | Agrees with DeclarationAt. |
| CssParser.CssParser.ConsumeIdent | saba_core/src/renderer/css/parser.rs:172-184 | Agrees with IdentAt. |
| CssParser.CssParser.ConsumeComponentValue | saba_core/src/renderer/css/parser.rs:186-188 | Returns the next token and moves past it. At the end it is the source's unwrap panic. |
| CssParserExamples.EmptyStylesheet | saba_core/src/renderer/css/parser.rs:202-206 | An empty stylesheet has no rules. |
| CssParserExamples.OneRule | saba_core/src/renderer/css/parser.rs:208-224 | "p {color: red;}" is one rule: type selector p with color: red. |
| CssParserExamples.OneRuleFromText | saba_core/src/renderer/css/parser.rs:208-224 | The same, from the text through the tokenizer. |
| CssParserExamples.IdRule | saba_core/src/renderer/css/parser.rs:226-243 | "#id {color: blue;}" is one rule with id selector "id". |
| CssParserExamples.ClassRuleRead | saba_core/src/renderer/css/parser.rs:245-262 | ".test_class {color: blue;}" is a rule with class selector test_class. |
| CssParserExamples.TwoRules | saba_core/src/renderer/css/parser.rs:264-293 | Two rules in order: the class rule, then h1 with font-size and color. |
| CssParserExamples.MediaRule | saba_core/src/renderer/css/parser.rs:36-44 | A rule introduced by an at-keyword is read with an unknown selector. |
| CssParserExamples.AtRuleAndPseudoClass | saba_core/src/renderer/css/parser.rs:28-120 | An at-rule followed by "a:hover {}" leaves only the rule for a. |
| CssParserExamples.PseudoClassWithoutBlock | saba_core/src/renderer/css/parser.rs:68-76 | "a:hover" with no block never finds '{' (the source loops). |
| CssParserExamples.ChildCombinator | saba_core/src/renderer/css/parser.rs:81-120 | A '>' delimiter in a selector is an unexpected token. |
| LayoutObject.NewComputedStyle | saba_core/src/renderer/layout/layout_object.rs:130-132 | Cascading starts from a style with nothing set. |
| LayoutObject.AttributeLoop | saba_core/src/renderer/layout/layout_object.rs:99-116 | The loop over the attributes finds one exactly when some attribute has the name and the value. |
| LayoutObject.IsNodeSelected | saba_core/src/renderer/layout/layout_object.rs:95-128 | Never for non-elements. An id (or class) selector, when an attribute "id" (or "class") has its value. A type selector, when the tag parses to the element's kind. An unknown selector never. |
| LayoutObject.CascadeDeclaration | saba_core/src/renderer/layout/layout_object.rs:133-182 | A declaration sets exactly the property it names, when its value is understood, and leaves the others. |
| LayoutObject.CascadeLastWins | saba_core/src/renderer/layout/layout_object.rs:130-184 | The last declaration that sets a property decides it. |
| LayoutObject.CascadeUntouched | saba_core/src/renderer/layout/layout_object.rs:130-184 | A property no declaration sets keeps its value. |
| LayoutObject.CascadeAppend | saba_core/src/renderer/layout/layout_object.rs:130-184 | Cascading two lists is cascading the first, then the second. |
| LayoutObject.Cascade | saba_core/src/renderer/layout/layout_object.rs:130-184 | The declarations applied in order. Its meaning is stated by CascadeLastWins, CascadeUntouched and CascadeAppend. |
| LayoutObject.CascadeRulesIsCascade | saba_core/src/renderer/layout/layout_object.rs:31-38 | Cascading rule by rule is cascading the declarations of the selected rules in order. |
| LayoutObject.CascadeRules | saba_core/src/renderer/layout/layout_object.rs:31-38 | The rule loop of create_layout_object. CascadeRulesIsCascade equates it with one cascade. |
| LayoutObject.MatchingDeclarations | saba_core/src/renderer/layout/layout_object.rs:31-38 | The declarations of the selected rules in sheet order. MatchingDeclarationsSelected states which ones. |
| LayoutObject.MatchingDeclarationsSelected | saba_core/src/renderer/layout/layout_object.rs:31-38 | Every declaration listed belongs to a rule whose selector selects the node, and every declaration of such a rule is listed. |
| LayoutObject.StyleFor | saba_core/src/renderer/layout/layout_object.rs:30-47 | The selected declarations cascaded over an empty style, then defaulted. CreateLayoutObject states how it decides the object. |
| LayoutObject.KindFor | saba_core/src/renderer/layout/layout_object.rs:194-208 | Text nodes give text objects, and elements a block or an inline object as their display says. |
| LayoutObject.Ratio | saba_core/src/renderer/layout/layout_object.rs:256-260 | The font-size ratio is 1 to 3, and 1 exactly for medium. |
| LayoutObject.Utf8Length | saba_core/src/renderer/layout/layout_object.rs:261 | The byte length of a string is between its character count and four times it. |
| LayoutObject.AsciiUtf8Length | saba_core/src/renderer/layout/layout_object.rs:261 | ASCII text is one byte per character. |
| LayoutObject.Lines | saba_core/src/renderer/layout/layout_object.rs:262-273 | The number of lines is the least one whose total width covers the text. |
| LayoutObject.TextSize | saba_core/src/renderer/layout/layout_object.rs:254-280 | Text that fits is one line of its width. Longer text is the content width wide and as many lines high as needed. |
| LayoutObject.TextSizeBounds | saba_core/src/renderer/layout/layout_object.rs:254-280 | A text's width is at most the content width, and its height at least one line. |
| LayoutObject.PositionFor | saba_core/src/renderer/layout/layout_object.rs:284-325 | A block, or the first object after a block, sits at the parent's x, below the previous object. An inline after an inline sits to its right. Anything else sits at the parent's point. |
| LayoutObject.BlocksStack | saba_core/src/renderer/layout/layout_object.rs:284-325 | A block never sits above the previous object, and sits at the parent's x. |
| LayoutObject.SameShapeValid | saba_core/src/renderer/layout/layout_object.rs:210-325 | Changing only points and sizes keeps the layout tree well formed. |
| LayoutObject.CreateLayoutObject | saba_core/src/renderer/layout/layout_object.rs:20-57 | Nothing for a missing node or one whose style is display none. Otherwise a new unlinked object at the origin with no size, whose kind follows its display. |
| LayoutObject.BlockHeightOfBlocks | saba_core/src/renderer/layout/layout_object.rs:214-236 | When all children are blocks, a block's height is the sum of their heights. |
| LayoutObject.InlineAfterInlineNotCounted | saba_core/src/renderer/layout/layout_object.rs:219-236 | An inline child after an inline adds nothing to a block's height. |
| LayoutObject.BlockHeight | saba_core/src/renderer/layout/layout_object.rs:219-236 | The block height loop. BlockHeightOfBlocks and InlineAfterInlineNotCounted state which children it counts. |
| LayoutObject.ChainWidth | saba_core/src/renderer/layout/layout_object.rs:239-252 | The width sum of the inline loop. ChainsIgnoreEarlierObjects states what it depends on. |
| LayoutObject.ChainHeight | saba_core/src/renderer/layout/layout_object.rs:239-252 | The height sum of the inline loop. BlockHeightOfBlocks equates it with a block's height when all children are blocks. |
| LayoutObject.SizeFor | saba_core/src/renderer/layout/layout_object.rs:210-282 | The size compute_size computes. SizePassSizesRoot and TextSize state its value. |
| LayoutObject.ChainsIgnoreEarlierObjects | saba_core/src/renderer/layout/layout_object.rs:210-282 | Changing an object earlier than the children does not change their width or height sums. |
| LayoutObject.LayoutArena.constructor | saba_core/src/renderer/layout/layout_view.rs:107-116 | A new layout arena is empty and well formed. |
| LayoutObject.LayoutArena.Append | saba_core/src/renderer/layout/layout_object.rs:20-57 | Appends an object with ordered links and returns its handle. |
| LayoutObject.LayoutArena.CascadingStyle | saba_core/src/renderer/layout/layout_object.rs:130-184 | The loop over the declarations computes the cascade of the whole list. |
| LayoutObject.LayoutArena.Create | saba_core/src/renderer/layout/layout_object.rs:20-57 | Computes CreateLayoutObject with the parent's style. |
| LayoutObject.LayoutArena.SetFirstChild | saba_core/src/renderer/layout/layout_object.rs:335-340 | Changes only the first-child link of the one object. |
| LayoutObject.LayoutArena.SetNextSibling | saba_core/src/renderer/layout/layout_object.rs:345-350 | Changes only the next-sibling link of the one object. |
| LayoutObject.LayoutArena.MeasureSize | saba_core/src/renderer/layout/layout_object.rs:210-282 | Computes the size SizeFor specifies (blocks: the parent's width and the height of their children; inlines: the children's sums; text: TextSize). |
| LayoutObject.LayoutArena.ComputeSizeAsWritten | saba_core/src/renderer/layout/layout_object.rs:210-282 | As written, compute_size changes nothing: the size it computes is never stored. |
| LayoutObject.LayoutArena.ComputeSize | saba_core/src/renderer/layout/layout_object.rs:210-282 | Corrected: stores the computed size into the object and changes nothing else. |
| LayoutObject.LayoutArena.ComputePosition | saba_core/src/renderer/layout/layout_object.rs:284-325 | Stores the position PositionFor gives and changes nothing else. |
| LayoutView.FirstShown | saba_core/src/renderer/layout/layout_view.rs:23-36 | A node the node-skipping loop finds is a non-document node at or after the start whose style is not display none. |
| LayoutView.FirstShownIsFirst | saba_core/src/renderer/layout/layout_view.rs:23-36 | Finds nothing exactly when every sibling is display none. Otherwise it finds the first sibling that is not. |
| LayoutView.NextShown | saba_core/src/renderer/layout/layout_view.rs:73-91 | A next sibling is found only after the node and only when it has a DOM next sibling. |
| LayoutView.ExtendsTrans | saba_core/src/renderer/layout/layout_view.rs:16-99 | Building only ever appends objects and fills their links, transitively. |
| LayoutView.AppendCreated | saba_core/src/renderer/layout/layout_view.rs:16-99 | Appending a created object extends the arena. |
| LayoutView.LinkRoot | saba_core/src/renderer/layout/layout_view.rs:42-98 | Linking the new object to later objects still extends the arena. |
| LayoutView.BuildTree | saba_core/src/renderer/layout/layout_view.rs:16-99 | The built arena extends the old one, and there is a root exactly when some sibling is shown. |
| LayoutView.BuildKids | saba_core/src/renderer/layout/layout_view.rs:42-98 | Building the children and the next sibling extends the arena, with links to later objects. |
| LayoutView.Refill | saba_core/src/renderer/layout/layout_view.rs:64-98 | The retry only extends the arena, and its result is the old root or the new object. |
| LayoutView.Retry | saba_core/src/renderer/layout/layout_view.rs:64-98 | A retry only appends objects and fills in their links, as a build does. |
| LayoutView.RetryIsBuild | saba_core/src/renderer/layout/layout_view.rs:64-98 | A retry gives exactly what the first build gave. |
| LayoutView.BuildTreeFinds | saba_core/src/renderer/layout/layout_view.rs:16-99 | The root is the layout object of the first shown sibling. |
| LayoutView.NodeOfExtends | saba_core/src/renderer/layout/layout_view.rs:16-99 | Extending the arena does not change which node an object lays out. |
| LayoutView.RefillFinds | saba_core/src/renderer/layout/layout_view.rs:64-98 | When nothing was found, the retry lays out the first shown next sibling of the original node. Otherwise it changes nothing. |
| LayoutView.KidsLinks | saba_core/src/renderer/layout/layout_view.rs:42-98 | The first child laid out is the node's first shown child, and the next sibling is its first shown next sibling. |
| LayoutView.BuildLinks | saba_core/src/renderer/layout/layout_view.rs:42-98 | The root lays out the first shown node, linked to the layouts of its first shown child and its next shown sibling. |
| LayoutView.BuildLayoutTree | saba_core/src/renderer/layout/layout_view.rs:16-99 | The arena and root are BuildTree's. |
| LayoutView.FindShown | saba_core/src/renderer/layout/layout_view.rs:23-36 | Finds the first shown sibling and its layout object, or nothing when every sibling is hidden. |
| LayoutView.BuildKidsOf | saba_core/src/renderer/layout/layout_view.rs:42-98 | The arena and links are BuildKids's. |
| LayoutView.RefillLoop | saba_core/src/renderer/layout/layout_view.rs:64-98 | The arena and root are Refill's. |
| LayoutView.RetryLoop | saba_core/src/renderer/layout/layout_view.rs:64-98 | The arena and root are Retry's. |
| LayoutView.SizePass | saba_core/src/renderer/layout/layout_view.rs:133-154 | Sizing changes only the sizes of objects from the root on. |
| LayoutView.ResizedTrans | saba_core/src/renderer/layout/layout_view.rs:133-154 | Two resizing passes are one resizing pass. |
| LayoutView.StoreSize | saba_core/src/renderer/layout/layout_object.rs:210-282 | Storing a size changes only that object's size. |
| LayoutView.SizePassSizesRoot | saba_core/src/renderer/layout/layout_view.rs:133-154 | After the pass, the root's size is the one SizeFor computes from its sized children. A block is as wide as its parent, and text has TextSize. |
| LayoutView.SizePassAsWritten | saba_core/src/renderer/layout/layout_view.rs:133-154 | As written, the pass keeps the arena's shape. |
| LayoutView.SizePassAsWrittenChangesNothing | saba_core/src/renderer/layout/layout_view.rs:133-154 | As written, the size pass leaves every object unchanged. |
| LayoutView.PositionPass | saba_core/src/renderer/layout/layout_view.rs:156-194 | Placing changes only the points of objects from the root on, and never a size. |
| LayoutView.PositionPassPlacesRoot | saba_core/src/renderer/layout/layout_view.rs:156-194 | The root is placed where PositionFor says. |
| LayoutView.CalculateNodeSize | saba_core/src/renderer/layout/layout_view.rs:133-154 | The arena after the recursion is SizePass's. |
| LayoutView.CalculateNodeSizeAsWritten | saba_core/src/renderer/layout/layout_view.rs:133-154 | The arena after the recursion as written is SizePassAsWritten's. |
| LayoutView.CalculateNodePosition | saba_core/src/renderer/layout/layout_view.rs:156-194 | The arena after the recursion is PositionPass's. |
| LayoutView.Preorder | saba_core/src/renderer/layout/layout_view.rs:200-214 | The paint order lists objects of the arena. |
| LayoutView.ItemsOfAppend | saba_core/src/renderer/layout/layout_view.rs:200-214 | Painting two orders is painting each in turn. |
| LayoutView.ItemsOfStep | saba_core/src/renderer/layout/layout_view.rs:200-214 | An object's items come before its children's, which come before its next sibling's. |
| LayoutView.PaintNode | saba_core/src/renderer/layout/layout_view.rs:200-214 | Appends the items of every object in preorder to the items so far. |
| LayoutView.UpdateLayout | saba_core/src/renderer/layout/layout_view.rs:118-130 | The size and position passes keep the tree's shape. |
| LayoutView.UpdateLayoutRoot | saba_core/src/renderer/layout/layout_view.rs:118-130 | A block root is placed at the origin and is as wide as the content area. |
| LayoutView.LayoutView.constructor | saba_core/src/renderer/layout/layout_view.rs:107-116 | The layout view builds from the body element found in the DOM and then runs the layout passes. |
| LayoutView.LayoutView.UpdateLayoutPasses | saba_core/src/renderer/layout/layout_view.rs:118-130 | The arena after the passes is UpdateLayout's. |
| LayoutView.LayoutView.Paint | saba_core/src/renderer/layout/layout_view.rs:216-220 | The display items of all objects in preorder from the root. |
| JsTokens.DigitsValuePrefix | saba_core/src/renderer/js/token.rs:28-48 | A prefix of a digit run is worth at most the whole run, so once the running value passes u64 it stays past it. |
| JsTokens.DigitsValueSnoc | saba_core/src/renderer/js/token.rs:36-40 | Appending a digit multiplies the value by ten and adds the digit. |
| JsTokens.DigitsValue | saba_core/src/renderer/js/token.rs:28-48 | The value of a digit run, most significant digit first. DigitsValueSnoc, DigitsValuePrefix and DigitsValueBound state it. |
| JsTokens.DigitsValueBound | saba_core/src/renderer/js/token.rs:28-48 | The value of k digits is below 10^k. |
| JsTokens.SkipBlanks | saba_core/src/renderer/js/token.rs:57-62 | Skips exactly the blanks before the next character. |
| JsTokens.DigitEnd | saba_core/src/renderer/js/token.rs:28-48 | Stops at the end of the digit run. |
| JsTokens.LexAt | saba_core/src/renderer/js/token.rs:54-78 | Nothing exactly when only blanks remain. A punctuator is one character. A number is the whole digit run, read in u64 (overflow is an error). Nothing else is read. |
| JsTokens.TokensFrom | saba_core/src/renderer/js/token.rs:54-78 | The stream holds punctuators and numbers only, at most one per character. |
| JsTokens.TokensFromStep | saba_core/src/renderer/js/token.rs:54-78 | The stream is the next token followed by the stream after it. |
| JsTokens.BlankInputHasNoTokens | saba_core/src/renderer/js/token.rs:54-78 | No tokens exactly when the input is blank. |
| JsTokens.Tokenize | saba_core/src/renderer/js/token.rs:54-78 | The whole input's tokens are punctuators and numbers, at most one per character. |
| JsTokens.JsLexer.constructor | saba_core/src/renderer/js/token.rs:21-26 | A new lexer is at position 0. |
| JsTokens.JsLexer.ConsumeNumber | saba_core/src/renderer/js/token.rs:28-48 | Returns the value of the digit run and stops at its end. A value past u64 is the overflow error. |
| JsTokens.JsLexer.Next | saba_core/src/renderer/js/token.rs:54-78 | Agrees with LexAt on the token and the new position. |
| JsTokenExamples.EmptyInput | saba_core/src/renderer/js/token.rs:87-91 | No input gives no tokens. |
| JsTokenExamples.SingleNumber | saba_core/src/renderer/js/token.rs:94-104 | "42" gives the number 42. |
| JsTokenExamples.AddNumbers | saba_core/src/renderer/js/token.rs:107-119 | "1 + 333" gives 1, '+', 333. |
| JsTokenExamples.KeywordUnsupported | saba_core/src/renderer/js/token.rs:54-78 | A letter is not a token the lexer reads. |
| JsAst.IdentifierAt | saba_core/src/renderer/js/ast.rs:224-234 | An identifier node exactly for an identifier token. One token is read, or none at the end. |
| JsAst.PrimaryAt | saba_core/src/renderer/js/ast.rs:374-386 | A literal or identifier node exactly for a number, string or identifier token. |
| JsAst.MemberAt | saba_core/src/renderer/js/ast.rs:350-368 | A primary followed by '.' and an identifier is a member expression. Otherwise it is the primary. |
| JsAst.SkipSemicolon | saba_core/src/renderer/js/ast.rs:180-208 | One ';' after a statement is consumed. |
| JsAst.AssignmentAt | saba_core/src/renderer/js/ast.rs:251-273 | Reading an assignment stays within the tokens. |
| JsAst.AdditiveAt | saba_core/src/renderer/js/ast.rs:276-299 | Reading an additive expression stays within the tokens. |
| JsAst.AdditiveNestsRight | saba_core/src/renderer/js/ast.rs:276-299 | The left operand of `+` or `-` is never itself a sum or a difference, so chains nest to the right. |
| JsAst.LhsAt | saba_core/src/renderer/js/ast.rs:302-320 | Reading a call or member expression stays within the tokens. |
| JsAst.ArgumentsAt | saba_core/src/renderer/js/ast.rs:324-347 | The argument loop stays within the tokens. |
| JsAst.InitializerAt | saba_core/src/renderer/js/ast.rs:237-248 | Without '=', nothing is read as the initializer and the token is consumed. |
| JsAst.VariableDeclarationAt | saba_core/src/renderer/js/ast.rs:211-220 | A declaration has one declarator. |
| JsAst.StatementAt | saba_core/src/renderer/js/ast.rs:180-208 | A statement read consumes tokens. |
| JsAst.SourceElementAt | saba_core/src/renderer/js/ast.rs:87-103 | A source element read consumes tokens. |
| JsAst.ParamsAt | saba_core/src/renderer/js/ast.rs:113-145 | The parameter loop stays within the tokens. |
| JsAst.ParameterListAt | saba_core/src/renderer/js/ast.rs:113-145 | Requires '(' (otherwise the source's panic) and consumes it. |
| JsAst.BodyAt | saba_core/src/renderer/js/ast.rs:148-173 | The body loop ends after '}'. |
| JsAst.FunctionBodyAt | saba_core/src/renderer/js/ast.rs:148-173 | Requires '{' (otherwise the source's panic). |
| JsAst.FunctionDeclarationAt | saba_core/src/renderer/js/ast.rs:106-110 | A function declaration node. |
| JsAst.ParseAst | saba_core/src/renderer/js/ast.rs:70-84 | No tokens give the empty program. |
| JsAst.ProgramAtPrefix | saba_core/src/renderer/js/ast.rs:70-84 | The program loop keeps the elements read so far in front of the ones it reads next. |
| JsAst.ProgramAt | saba_core/src/renderer/js/ast.rs:70-84 | The program read keeps the elements read so far in front, and adds at most one element per remaining token. |
| JsAst.OtherKeywordEndsProgram | saba_core/src/renderer/js/ast.rs:180-208 | A keyword other than var, return and function yields no statement and ends the program. |
| JsAst.UnclosedBodyFails | saba_core/src/renderer/js/ast.rs:148-173 | A body with no '}' runs out of tokens, which is the source's panic. |
| JsAst.StrayPunctuatorInParameters | saba_core/src/renderer/js/ast.rs:113-145 | A punctuator other than ')' or ',' reached before the list closes makes the loop spin forever (Diverges), whatever follows it; identifiers and commas before it are read as usual. |
| JsAst.JsParser.constructor | saba_core/src/renderer/js/ast.rs:66-68 | A new parser is at the first token. |
| JsAst.JsParser.Peek | saba_core/src/renderer/js/ast.rs:66-68 | Peeking gives the current token. |
| JsAst.JsParser.Advance | saba_core/src/renderer/js/ast.rs:66-68 | Advancing returns the current token and moves past it. |
| JsAst.JsParser.ParseAstLoop | saba_core/src/renderer/js/ast.rs:70-84 | The program is ProgramAt's. |
| JsAst.JsParser.SourceElement | saba_core/src/renderer/js/ast.rs:87-103 | Agrees with SourceElementAt. |
| JsAst.JsParser.FunctionDeclaration | saba_core/src/renderer/js/ast.rs:106-110 | Agrees with FunctionDeclarationAt. |
| JsAst.JsParser.ParameterList | saba_core/src/renderer/js/ast.rs:113-145 | Agrees with ParameterListAt. |
| JsAst.JsParser.FunctionBody | saba_core/src/renderer/js/ast.rs:148-173 | Agrees with FunctionBodyAt. |
| JsAst.JsParser.Statement | saba_core/src/renderer/js/ast.rs:180-208 | Agrees with StatementAt. |
| JsAst.JsParser.VariableDeclaration | saba_core/src/renderer/js/ast.rs:211-220 | Agrees with VariableDeclarationAt. |
| JsAst.JsParser.Identifier | saba_core/src/renderer/js/ast.rs:224-234 | Agrees with IdentifierAt. |
| JsAst.JsParser.Initializer | saba_core/src/renderer/js/ast.rs:237-248 | Agrees with InitializerAt. |
| JsAst.JsParser.AssignmentExpression | saba_core/src/renderer/js/ast.rs:251-273 | Agrees with AssignmentAt. |
| JsAst.JsParser.AdditiveExpression | saba_core/src/renderer/js/ast.rs:276-299 | Agrees with AdditiveAt. |
| JsAst.JsParser.LeftHandSideExpression | saba_core/src/renderer/js/ast.rs:302-320 | Agrees with LhsAt. |
| JsAst.JsParser.Arguments | saba_core/src/renderer/js/ast.rs:324-347 | Agrees with ArgumentsAt. |
| JsAst.JsParser.MemberExpression | saba_core/src/renderer/js/ast.rs:350-368 | Agrees with MemberAt. |
| JsAst.JsParser.PrimaryExpression | saba_core/src/renderer/js/ast.rs:374-386 | Agrees with PrimaryAt. |
| JsAstExamples.OneStatement | saba_core/src/renderer/js/ast.rs:70-84 | A single element spanning the stream is the program. |
| JsAstExamples.Num | saba_core/src/renderer/js/ast.rs:515-527 | A number is an expression statement holding a numeric literal. |
| JsAstExamples.AddNums | saba_core/src/renderer/js/ast.rs:530-546 | "a + b" is one additive expression. |
| JsAstExamples.MinusNums | saba_core/src/renderer/js/ast.rs:549-565 | "98765 - 1234" is one subtraction. |
| JsAstExamples.SubtractionNestsRight | saba_core/src/renderer/js/ast.rs:276-299 | "1 - 2 - 3" nests to the right, because the right operand is a whole assignment expression. |
| JsAstExamples.AssignVariable | saba_core/src/renderer/js/ast.rs:568-583 | var foo="bar"; is a declaration with one declarator. |
| JsAstExamples.AddVariableAndNum | saba_core/src/renderer/js/ast.rs:586-621 | var foo=42; var result = foo + 1; is two declarations, the second initialised by foo + 1. |
| JsAstExamples.Member | saba_core/src/renderer/js/ast.rs:350-368 | a.b is a member expression. |
| JsAstExamples.CallWithArguments | saba_core/src/renderer/js/ast.rs:777-816 | foo(100, 400); is a call with two arguments. |
| JsAstExamples.DefineFunctionWithArguments | saba_core/src/renderer/js/ast.rs:702-728 | A function with two parameters and a return body. |
| JsAstExamples.UnclosedFunction | saba_core/src/renderer/js/ast.rs:148-173 | An unclosed function body is an error. |
| JsAstExamples.StrayMinusParameter | saba_core/src/renderer/js/ast.rs:113-145 | function f(a - b) {} never finishes its parameter list. |
| JsRuntime.DecimalString | saba_core/src/renderer/js/runtime.rs:119-125 | A number displays as digits, with a leading 0 only for zero. |
| JsRuntime.DecimalStringRoundTrip | saba_core/src/renderer/js/runtime.rs:119-125 | The displayed digits read back as the number. |
| JsRuntime.Display | saba_core/src/renderer/js/runtime.rs:119-125 | A string displays as itself, and a number as digits that read back as it. |
| JsRuntime.Add | saba_core/src/renderer/js/runtime.rs:87-97 | Fails exactly when two numbers sum past u64, with the overflow error. Otherwise two numbers give a u64 number from which subtracting the right operand gives the left. Any other pair gives a string whose first part is the left operand's display and whose rest is the right one's. |
| JsRuntime.Sub | saba_core/src/renderer/js/runtime.rs:103-114 | Fails exactly when the right number is larger, with the underflow error. Otherwise two numbers give a number that added to the right operand is the left. Any other pair gives the number 0. |
| JsRuntime.AddSubInverse | saba_core/src/renderer/js/runtime.rs:87-114 | Subtracting what was added gives the number back. |
| JsRuntime.SubAddInverse | saba_core/src/renderer/js/runtime.rs:87-114 | Adding back what was subtracted gives the number back. |
| JsRuntime.FirstIndex | saba_core/src/renderer/js/runtime.rs:42-55 | The first binding with the name, or nothing when none has it. |
| JsRuntime.LookupAppend | saba_core/src/renderer/js/runtime.rs:42-60 | A lookup in a concatenation of bindings finds the first part's binding if it has one, and otherwise the second part's. |
| JsRuntime.UpdatedVars | saba_core/src/renderer/js/runtime.rs:63-71 | An update never changes the number of bindings. |
| JsRuntime.UpdateLeavesOthers | saba_core/src/renderer/js/runtime.rs:63-71 | An update leaves every other name's binding unchanged. |
| JsRuntime.UpdateReadBack | saba_core/src/renderer/js/runtime.rs:63-71 | When the name is bound once, it reads back the new value after an update; an absent name leaves the bindings unchanged. |
| JsRuntime.UpdateReadsNextBinding | saba_core/src/renderer/js/runtime.rs:42-71 | With duplicates, an update removes the first binding, so the read finds the next older binding of the name, and the new value only when there is none. |
| JsRuntime.AddedReadBack | saba_core/src/renderer/js/runtime.rs:58-60 | A name added reads back its value unless an earlier binding shadows it. |
| JsRuntime.UpdateKeepsNames | saba_core/src/renderer/js/runtime.rs:63-71 | Every name bound before an update is still bound after it. |
| JsRuntime.AddKeepsNames | saba_core/src/renderer/js/runtime.rs:58-60 | Every name bound before a binding is added is still bound after it. |
| JsRuntime.Environment.GetVariable | saba_core/src/renderer/js/runtime.rs:42-55 | In the outermost scope, and whenever this scope binds the name, the value is this scope's first binding of the name. |
| JsRuntime.Environment.constructor | saba_core/src/renderer/js/runtime.rs:35-40 | A new scope has no variables and the given outer scope. |
| JsRuntime.Environment.GetVariableIsVisibleLookup | saba_core/src/renderer/js/runtime.rs:42-55 | A lookup searches this scope, then the outer scopes. |
| JsRuntime.Environment.AddVariable | saba_core/src/renderer/js/runtime.rs:58-60 | Appends the binding. |
| JsRuntime.Environment.UpdateVariable | saba_core/src/renderer/js/runtime.rs:63-71 | The bindings become UpdatedVars's. |
| JsRuntime.Environment.NumVariables | saba_core/src/renderer/js/runtime.rs:73-75 | Counts the bindings of this scope alone, not of its outer ones. |
| JsRuntime.PureExpressionKeepsScope | saba_core/src/renderer/js/runtime.rs:147-238 | Expressions without declarations or assignments leave the variables unchanged. |
| JsRuntime.IdentifierValue | saba_core/src/renderer/js/runtime.rs:225-233 | An identifier evaluates to its bound value, or to its own name as a string when it is unbound. |
| JsRuntime.Evaluate | saba_core/src/renderer/js/runtime.rs:147-238 | Evaluation never unbinds a name: every name bound before is bound after. |
| JsRuntime.EvaluateDeclarations | saba_core/src/renderer/js/runtime.rs:205-216 | Declaring variables never unbinds a name. |
| JsRuntime.ExecuteAll | saba_core/src/renderer/js/runtime.rs:141-145 | Running a program never unbinds a name. |
| JsRuntime.JsRuntime.constructor | saba_core/src/renderer/js/runtime.rs:135-139 | A new runtime has an empty scope. |
| JsRuntime.JsRuntime.Eval | saba_core/src/renderer/js/runtime.rs:147-238 | Agrees with Evaluate on the value and the variables after evaluation. |
| JsRuntime.JsRuntime.EvalDeclarations | saba_core/src/renderer/js/runtime.rs:205-216 | Agrees with EvaluateDeclarations. |
| JsRuntime.JsRuntime.Execute | saba_core/src/renderer/js/runtime.rs:141-145 | The variables afterwards are ExecuteAll's. |
| JsRuntimeExamples.AddVariableAndNum | saba_core/src/renderer/js/runtime.rs:312-329 | var foo=42; foo+1 gives nothing, then 43. |
| JsRuntimeExamples.ReassignVariable | saba_core/src/renderer/js/runtime.rs:332-350 | var foo=42; foo=150; foo gives 150, and the binding is replaced. |
| JsRuntimeExamples.MixedOperands | saba_core/src/renderer/js/runtime.rs:87-114 | 100+"aaa" is "100aaa", "abc"+532 is "abc532", and 150-"aaa" is 0. |
| JsRuntimeExamples.ReassignAndAddString | saba_core/src/renderer/js/runtime.rs:353-390 | After the program, foo is "abc532", a is "100aaa" and b is 0. |
| JsRuntimeExamples.DuplicateUpdateReadsOlder | saba_core/src/renderer/js/runtime.rs:42-71 | var a=1; var a=2; a=3; leaves the bindings a=2, a=3, and a then reads 2. |
| JsRuntimeExamples.AddVariableAndNumParses | saba_core/src/renderer/js/runtime.rs:312-329 | The tokens of var foo=42;foo+1; parse to the two statements. |
| JsRuntimeExamples.MemberUnsupported | saba_core/src/renderer/js/runtime.rs:147-238 | Member expressions are not evaluated. |
| JsPipelineExamples.BinaryProgram | saba_core/src/renderer/js/ast.rs:530-565 | Any "a + b" or "a - b" of two numbers parses to one additive expression statement. |
| JsPipelineExamples.NumEvaluates | saba_core/src/renderer/js/runtime.rs:260-268 | "42" lexes, parses and evaluates to 42. |
| JsPipelineExamples.AddNumEvaluates | saba_core/src/renderer/js/runtime.rs:271-279 | "4321 + 12333" evaluates to 16654. |
| JsPipelineExamples.SubNumsEvaluates | saba_core/src/renderer/js/runtime.rs:282-289 | "11-9" evaluates to 2. |
| JsPipelineExamples.SumValue | saba_core/src/renderer/js/runtime.rs:87-97 | A sum of two numbers within range evaluates to their sum. |
| JsPipelineExamples.DifferenceValue | saba_core/src/renderer/js/runtime.rs:103-114 | A difference of two numbers evaluates to their difference. |

## Left out

- The HTML tokenizer (`html/token.rs`) is not part of this model. Tree construction is given the token sequence it would produce.
- `computed_style.rs`, `constants.rs`, `color.rs` and the display items of `layout/` are not part of this model. They are parameters:
  - `LayoutObject.StyleEnv` supplies colour lookup, defaulting and the default colours;
  - `LayoutObject.Metrics` supplies the character width, character height and content width, as positive numbers;
  - painting takes the function that turns an object into display items.
- `browser.rs`, `page.rs` and the UI are not part of this model.
- `Rc`, `Weak` and `RefCell` sharing are replaced by arenas. The model does not capture aliasing through shared cells. `set_window` (`dom/node.rs:69`) becomes the fixed handle 0 of the Document.
- The CSS number `f64` is an exact `real`, so floating-point rounding is not modelled.
- JavaScript numbers are `u64`. The lexer's and `+`'s overflow and `-`'s underflow, which panic or wrap in the source, are explicit errors.
- `LayoutObject.Utf8Length` computes the exact UTF-8 byte length of text (`t.len()`). Its contract states only the bounds of one to four bytes per character, and `LayoutObject.AsciiUtf8Length` states the ASCII case.
- `LayoutObject.TextSize`, `LayoutObject.Lines`, `LayoutObject.SizeFor` and `LayoutObject.BlockHeight` use unbounded integers. The source computes in `i64` (`CHAR_WIDTH * ratio * t.len()`, the `+=` sums, `wrapping_div` and `wrapping_rem` at `layout/layout_object.rs:219-270`), so overflow of very long text or very tall trees is not modelled.
- The DOM `Attribute` type is a plain name–value record. Its construction by the tokenizer is not modelled.
- `DomElement.KindFromStr`: the error carries the rejected name rather than the formatted message.
- The duplicate `CssParser` struct in `css/cssom.rs:9-19` is not modelled. The parser of `css/parser.rs` is.
- The `Node::new_*` constructors and the `Program` methods of `js/ast.rs` are the constructors of the `JsAst.Node` and `JsAst.Program` datatypes.
- `JsRuntime.JsRuntime.Eval`:
  - `eval` in `js/runtime.rs` has no case for block, return, function-declaration and call nodes, so as written the source's match is not exhaustive. The model evaluates these nodes to the `Unsupported` error.
  - A member expression (`unimplemented!`) is also `Unsupported`.
- `JsRuntime.Evaluate` specifies evaluation in the runtime's own scope, which has no outer scope. Nested scopes are modelled by `JsRuntime.Environment` and its lookup, but `eval` never creates one.
- `JsRuntime.UpdateReadBack` promises the read-back only for a name bound once. `add_variable` (`js/runtime.rs:58-60`) allows duplicates, and then `update_variable` removes the first binding while `get_variable` returns the next older one, so `var a=1; var a=2; a=3; a` gives 2. That case is stated by `JsRuntime.UpdateReadsNextBinding` and `JsRuntimeExamples.DuplicateUpdateReadsOlder`.
- `JsRuntime.JsRuntime.Eval`, `JsRuntime.JsRuntime.Execute`: after an error, the scope is left unspecified.
- `CssTokens.CssTokenizer.ConsumeStringToken`: after an unterminated string, the cursor is left unspecified.
- `JsAst`: the source's parser pulls tokens lazily from the lexer (`js/ast.rs:55-57`). The model parses an already lexed token sequence, so when an input has both a lexer error and a parser error, the model may report a different error first.
- `CssParser`: the source parses lazily from the tokenizer. The model tokenizes first (`ParseCss`), so when an input has both a tokenizer panic and a parser panic, the model may report a different error first.
- `LayoutView.SizePass` runs the corrected size pass, which stores each computed size. As written, `compute_size` (`layout/layout_object.rs:210-282`) never stores it and every object keeps size (0, 0); that behaviour is `LayoutView.SizePassAsWritten` (see Findings).
- `LayoutView.CalculateNodeSize` runs the corrected size pass, which stores each computed size. As written, `compute_size` (`layout/layout_object.rs:210-282`) never stores it and every object keeps size (0, 0); that behaviour is `LayoutView.SizePassAsWritten` (see Findings).
- `LayoutView.UpdateLayout` runs the corrected size pass, which stores each computed size. As written, `compute_size` (`layout/layout_object.rs:210-282`) never stores it and every object keeps size (0, 0); that behaviour is `LayoutView.SizePassAsWritten` (see Findings).
- `LayoutView.UpdateLayoutRoot` runs the corrected size pass, which stores each computed size. As written, `compute_size` (`layout/layout_object.rs:210-282`) never stores it and every object keeps size (0, 0); that behaviour is `LayoutView.SizePassAsWritten` (see Findings).
- `LayoutView.LayoutView.constructor` runs the corrected size pass, which stores each computed size. As written, `compute_size` (`layout/layout_object.rs:210-282`) never stores it and every object keeps size (0, 0); that behaviour is `LayoutView.SizePassAsWritten` (see Findings).
- `LayoutView.LayoutView.UpdateLayoutPasses` runs the corrected size pass, which stores each computed size. As written, `compute_size` (`layout/layout_object.rs:210-282`) never stores it and every object keeps size (0, 0); that behaviour is `LayoutView.SizePassAsWritten` (see Findings).
- `CssTokens.TokenAt` gives number tokens the corrected decimal value (`CssTokens.NumberValue`). As written, the fraction weight at `css/token.rs:66-69` makes "1.5" read as 6.5; that reading is `CssTokens.AsWrittenNumber` (see Findings).
- `CssTokens.DigitToken` gives number tokens the corrected decimal value (`CssTokens.NumberValue`). As written, the fraction weight at `css/token.rs:66-69` makes "1.5" read as 6.5; that reading is `CssTokens.AsWrittenNumber` (see Findings).
- `CssTokens.CssTokenizer.ConsumeNumericToken` gives number tokens the corrected decimal value (`CssTokens.NumberValue`). As written, the fraction weight at `css/token.rs:66-69` makes "1.5" read as 6.5; that reading is `CssTokens.AsWrittenNumber` (see Findings).
- `CssTokens.NextToken` gives number tokens the corrected decimal value (`CssTokens.NumberValue`). As written, the fraction weight at `css/token.rs:66-69` makes "1.5" read as 6.5; that reading is `CssTokens.AsWrittenNumber` (see Findings).
- `CssTokens.CssTokenizer.Next` gives number tokens the corrected decimal value (`CssTokens.NumberValue`). As written, the fraction weight at `css/token.rs:66-69` makes "1.5" read as 6.5; that reading is `CssTokens.AsWrittenNumber` (see Findings).
- `CssTokens.CssTokenizer.ReadToken` gives number tokens the corrected decimal value (`CssTokens.NumberValue`), since it reads the token `CssTokens.TokenAt` specifies. As written, the fraction weight at `css/token.rs:66-69` makes "1.5" read as 6.5; that reading is `CssTokens.AsWrittenNumber` (see Findings).
- `CssTokens.Tokenize` gives number tokens the corrected decimal value (`CssTokens.NumberValue`). As written, the fraction weight at `css/token.rs:66-69` makes "1.5" read as 6.5; that reading is `CssTokens.AsWrittenNumber` (see Findings).
- Unit tests not replayed:
  - `html/parser.rs` `test_multiple_nodes` (673) and `test_style_with_newline` (736);
  - `css/token.rs` `test_one_rule`, `test_id_selector`, `test_class_selector`, `test_multiple_rules` and `test_atmark`. The tokenizer is replayed on the text of `css/parser.rs` `test_one_rule` (`CssTokenExamples.RuleTokenize`). The general lemmas (`CssTokens.IdentToken`, `CssTokens.HashTokenAt`, `CssTokens.PunctuatorToken`, `CssTokens.AtKeywordShape`) state each token those tests expect;
  - `js/ast.rs` tests at 624, 676 and 732;
  - the tests of `layout/layout_view.rs`, which need the HTML tokenizer and the computed-style module;
  - the `js/runtime.rs` tests from 292 on, which start from source text containing keywords and identifiers that the lexer cannot read. They are replayed from the token sequence or the tree the parser expects.

## Findings

| source | as written | input that shows it | evidently intended | confidence | as-written member | corrected member |
|---|---|---|---|---|---|---|
| saba_core/src/renderer/css/token.rs:66-69 | Each digit after the point adds `1/10` to its weight (`floating_digit += 1/10`), starting from 1. | `1.5` reads as 6.5 | Each digit after the point is worth a tenth of the one before, so `1.5` reads as 1.5 | not executed | CssTokens.AsWrittenFraction | CssTokens.DecimalValue |
| saba_core/src/renderer/layout/layout_object.rs:210-282 | `compute_size` builds `size` in a local variable and never stores it into the object, so every object keeps size (0, 0). | any block with a text child | the computed size is stored into the object | not executed | LayoutView.SizePassAsWrittenChangesNothing | LayoutView.SizePassSizesRoot |
