# Iron Query: what the printed SQL means

Iron Query builds SQL text from C++ expression trees and statement builders. This project
models the printer, the statement builders and the text algorithms under them, and proves
that the text they produce, read back character by character, is the SQL that was built.

## The model

**Trees.** `Syntax` has one constructor for each shape of node the C++ operators create
(`Expr`), and one for each kind of table value (`Rel`). A tree records the calls a program
made; `WellFormed.Meaning` is the SQL tree those calls stand for (`Expr(-42)` stands for a
minus applied to 42, `NotExists` for NOT applied to EXISTS, a dotted call for member
accesses).

**Printing.** `Node` is the render tree of `src/impl/node.cpp`: parts, precedence slots, exact
sizes, and the renderer as the C++ writes it (`AppendPart` on a buffer). `Fragments` holds the
literal fragments of the source. `Render.Build` gives the node of every constructor in
`src/expr.cpp` and `src/condition.cpp`; the other functions of `Render` give the texts of the
statements. `Printer` prints the same trees as tokens, and `Phrases` says that the fragments spell
those keywords.

**Reading.** `Lexer` is a total lexer for the printed characters: runs of operator characters,
names, numerals, parameters, quoted strings with doubled quotes, keywords in any case. `Grammar`
is a precedence parser that knows PostgreSQL's operator table (PostgreSQL 17 documentation,
section 4.1.6), written out there as row numbers, and the clause grammar. It knows nothing of the
precedences of the printer, nor of where the printer puts brackets. Its `Dialect` gives every operator name a precedence, because the caller of `BinaryOp` and `PrefixOp`
chooses one. `Inserts` adds the tokens and the grammar of INSERT.

**Main results.** The modules build up to these:

1. `RoundTrip.ExprRoundTrip`: for every well-formed expression or condition,
   lexing and parsing its text gives its meaning. `OperandRoundTrip` is the form with a slot and
   an arbitrary following text; `ExprTextsDiffer` says that different meanings never print alike.
   `Brackets.BracketsExact` is the text itself: an operand is bracketed if and only if the reader's
   table puts its operator in the row of the slot or further down.
2. `RoundTrip.StatementRoundTrip`: the same for SELECT with every clause, joins, set operations,
   aliases and WITH, nested to any depth; `InsertRoundTrip.TextRoundTrip` for INSERT.
   `Words.ValueByWord` and `Lines.FormattedByLine` give the two layouts word by word and line by
   line.
3. `Splitting.ExprBalanced`, `CallSplits`, `InListSplits`, `SplitJoined`: what a tree prints closes
   every bracket it opens and has no comma outside all brackets, so rendered argument lists, IN
   lists and clauses split back into their elements.
4. `FormattedTrip.FormattedExact`: what the multi-line text of every statement parses to, which is
   the statement itself if and only if no token inside a common table expression spans several
   lines; `Formats.LayoutsAgree` is the same condition for equal tokens.
5. Where the printer does not keep the meaning, the exact condition: `OpenEdges.LeftExact` for the
   left operand of every operator, and what the text is read as otherwise; `MinusExact` and
   `MemberExact` for the characters.
6. For the builder classes: which call runs throw and which can be printed, in terms of the
   calls and their arguments alone, that the order of SELECT setters is
   irrelevant, and that the finished text reads back as the calls that were made and nothing more
   (`SelectBuilding`, `WithBuilding`, `JoinBuilding`, `CaseBuilding`, `InsertBuilding`).

**Well-formed.** One family of predicates (`WellFormed.ExprOk`, `RelOk`) under three sets of rules.
`Atoms` asks only that the leaves of the tree are single tokens, and is all that the token form of
balance needs. `Spelling` also asks that leaves spell themselves, names are not keywords the printer
emits, operator names start no comment, member access has no numeral in front of the dot or behind
it, and that lists and queries stand where the library or SQL requires them; precedences are
whatever the caller chose, and leaves may hide operators anywhere. `Reading` also asks that operators
carry the precedence the dialect gives them, and that in front of every operator no leaf at the open
right edge of the operand hides a looser one (`EdgeRank`, `LeftOk`). On the right of an operator
such a leaf is well-formed: `x = NOT EXISTS (...)` reads back.

**Builders.** Each C++ class whose methods update its fields is a class here with those fields.
A `State` (or the list of common table expressions) is what the builder has been told, `Apply`
is one call with `None` where the C++ throws, and every method is proved against `Apply`. Facts
about whole programs are lemmas about `Run`. In `SelectExpr`, `ToString` and `ToStringFormatted`
are each split in two methods, up to the FROM item and behind it.

## Where the code and its prose differ

- `include/iron_query/expr.hpp:342-343` and `src/impl/node.hpp:18-20` say that a child is
  bracketed when it does not bind at least as tightly as its slot, so an equal level would stay
  bare. The code brackets equal levels (`src/impl/node.cpp:9`), and `tests/test_expr.cpp:28` and
  `tests/test_expr.cpp:34` expect it. The model follows the code.
- `Expr(-1)` is a `kSymbol` leaf (`src/expr.cpp:27`), so `-Expr(-1)` prints `--1`, which begins a
  comment (`RoundTrip.MinusOfNegative`), and `Expr(-1)[i]` means the minus of a subscript
  (`OpenEdges.LeftExact`).
- `NotExists` is a `kSymbol` leaf (`src/expr.cpp:162-165`): at the right edge of the left operand of
  a comparison, a test such as IS NULL, BETWEEN or IN, its NOT takes in that operator and what
  follows it. `(x == NotExists(q)).IsNull()` prints `x = NOT EXISTS (...) IS NULL`, which means
  `x = NOT ((EXISTS (...)) IS NULL)` (`OpenEdges.LeftExact`).
- `include/iron_query/expr.hpp:156` lets `PrefixOp` default to `kUnaryPlus`, but PostgreSQL has
  every prefix operator except the two signs in the row of the other operators: `PrefixOp("~", a) + b`
  prints `~ a + b`, which means `~ (a + b)` (`Operators.DefaultPrefixMisread`).
- The comment at `include/iron_query/select_expr.hpp:101` leaves out that `ToStringFormatted` also
  throws when both DISTINCT forms are set; `EnsureValid` is shared.
- `CaseBuilder::End` does not notice a WHEN that was never completed; it is dropped
  (`CaseBuilding.CaseRoundTrip`).
- `src/virtual_table.cpp:15-19` rejects a subquery without an alias as the whole FROM item
  (`VirtualTables.FromItemExact`); as an operand of a join it is let through
  (`src/join.cpp:29-31`, `VirtualTables.OperandExact` and `OperandAccepted`).

## Model

| member | source | states |
|---|---|---|
| RoundTrip.ExprRoundTrip | src/impl/node.cpp:26-43 | lexing and parsing the text of any well-formed expression or condition by the literal operator table of the reader gives back the tree it was built from |
| RoundTrip.OperandRoundTrip | src/expr.cpp:494-498 | `Extract` in any slot, in front of any text that neither glues to it nor continues it, is read as exactly that operand, and the text behind is left untouched |
| Brackets.BracketsExact | src/impl/node.cpp:8-43 | the exact text of every expression, put together from the texts of its operands: each is bracketed if and only if its operator is in the row of the slot or further down in the reader's table |
| Brackets.SlotExact | src/impl/node.cpp:8-10 | a child in a slot is `(` text `)` if and only if its row is at or below that of the slot, and its bare text if and only if it is above |
| Brackets.LogicBrackets | src/condition.cpp:18-30 | `(x OR y) AND z` keeps its brackets and `x OR y AND z` has none, for any operands that bind tighter |
| Brackets.EnumeratorsOrdered | include/iron_query/operator_precedence.hpp:10-29 | the enumerators are in the order of the table, strictly |
| Operators.OperatorKnown | src/expr.cpp:220-222 | each of the thirteen binary operators of the library is in the row of PostgreSQL's table that it is bracketed for |
| Operators.OperatorReads | src/expr.cpp:418-485 | hence its text is read as that operator with those operands |
| Operators.DefaultPrefixMisread | include/iron_query/expr.hpp:156 | with its default precedence, a prefix operator that is no sign takes in a sum, product or power around it |
| RoundTrip.ExprTextsDiffer | src/expr.cpp:498 | expressions with different meanings never have the same text |
| RoundTrip.BetweenSplits | src/expr.cpp:232-250 | the AND of a BETWEEN is never confused with a conjunction or disjunction around it, on either side, whatever the operands are |
| RoundTrip.StatementRoundTrip | src/select_expr.cpp:107-131 | the text of any well-formed statement, join, set operation, alias or WITH query reads back as that statement, clause by clause |
| FormattedTrip.FormattedExact | src/with.cpp:16-45 | the multi-line text of every statement reads as one statement, that with the tokens of its common table expressions indented; it is the statement itself if and only if no token in them spans lines |
| FormattedTrip.FormattedTree | src/with.cpp:16-45 | the tokens of the multi-line text are those printed by that statement, at any nesting |
| FormattedTrip.FormattedChangesLiteral | src/with.cpp:20-23 | a string literal in a common table expression is read from the formatted text with eight more spaces after each of its line breaks |
| RoundTrip.MinusExact | src/expr.cpp:470-475 | unary minus is read as a minus and its operand if and only if the operand's text does not start with an operator character |
| RoundTrip.MinusOfNegative | src/expr.cpp:27 | negating the literal -1 prints `--1`, which is not read as a minus in front of -1 |
| RoundTrip.MemberExact | src/expr.cpp:190-195 | whatever its operands, a member access is read as its operand, a dot and its member if and only if the operand is no number |
| OpenEdges.LeftExact | src/expr.cpp:162-417 | whatever its left operand, an expression with an infix, postfix, BETWEEN, IN, ANY, ALL or subscript operator reads back if and only if no leaf at the right edge of that operand hides an operator looser than it; otherwise it is read with that leaf taking in the operator and all behind it |
| OpenEdges.OpenMisread | src/expr.cpp:27 | what such an expression is read as, through any depth of operators down to the leaf |
| OpenEdges.EdgeTakes | src/impl/node.cpp:8-10 | token level: an operand in a slot whose open edge is looser than what follows is read together with what follows |
| Balance.PrintScans | src/expr.cpp:109-124 | token level: the tokens of any tree with atomic leaves, any precedences and any hidden operators, leave the open brackets as they were and put no comma outside them |
| Balance.RelScans | src/select_expr.cpp:107-131 | the same for every table value inside brackets, subqueries to any depth |
| Splitting.ExprBalanced | src/impl/node.cpp:26-43 | the characters of an expression lex to properly nested brackets of both kinds, closed at the end, and every comma is inside some |
| Splitting.RelBalanced | src/virtual_table.cpp:9-31 | the text of a table value leaves the brackets around it as they were |
| Splitting.SplitCommas | src/impl/render.cpp:7-23 | splitting at the commas outside brackets undoes joining, for any balanced pieces |
| Splitting.SplitJoined | src/impl/render.cpp:7-23 | splitting the tokens of `JoinCsv` gives the tokens of its items without the empty ones in front, for all items that are balanced, with whatever commas inside brackets and quotes |
| Splitting.ClauseSplits | src/impl/render.hpp:62-81 | a clause of rendered expressions splits back into exactly their tokens |
| Splitting.CallSplits | src/expr.cpp:109-136 | the text of a call is its name, a bracket, DISTINCT if asked for, and a list that splits back into the texts of its arguments |
| Splitting.InListSplits | src/expr.cpp:303-337 | the text of IN or NOT IN with a list is the operand, the words, and a list that splits back into the texts of its values |
| ReadBack.OperandReads | src/impl/node.cpp:8-10 | token level: a child rendered in a slot is read as the child and nothing more, in front of anything that cannot continue it at that level |
| ReadBack.DelimitedReads | src/expr.cpp:212-218 | an expression between delimiters is read completely, whatever its own precedence |
| ReadBack.BetweenReads | src/expr.cpp:232-250 | BETWEEN and NOT BETWEEN are read with exactly their three operands |
| ReadBack.SuffixReads | src/expr.cpp:324-376 | subscripts, IN lists, IN, ANY and ALL are read with their delimited parts, subquery or list |
| ReadBack.CallReads | src/expr.cpp:109-136 | plain and dotted calls, with and without DISTINCT, are read with all their arguments |
| ReadBack.CaseReads | src/case_builder.cpp:36-45 | a CASE is read with all its pairs and its ELSE |
| ReadBack.SelectReads | src/select_expr.cpp:107-131 | token level: each clause of a SELECT is read where it ends, whichever of the others are present |
| ReadBack.FromReads | src/join.cpp:54-63 | joins and aliased items are read back as FROM items with their qualifiers |
| ReadBack.RelReads | src/virtual_table.cpp:9-31 | token level round trip of every table value |
| LexPrint.BareLexes | src/expr.cpp:167-500 | no token gluing: the characters of a rendered tree lex to exactly the tokens of the tree, in front of any text that does not glue |
| LexPrint.SlotLexes | src/impl/node.cpp:69-80 | the same for a child in a slot, with the brackets it gets there |
| LexPrint.SlotStarts | src/expr.cpp:470-475 | the first character of a rendered operand is an operator character exactly when the tree says so |
| LexPrint.SelectLexes | src/select_expr.cpp:133-158 | both layouts of a SELECT lex to the same tokens, those of the statement |
| LexPrint.RelLexes | src/join.cpp:54-61 | the characters of any table value lex to its tokens |
| LexPrint.NonEmpty | src/expr.cpp:498 | a well-formed expression never renders to the empty string, so text-backed clauses are set once given |
| Lexer.LexSpell | src/expr.cpp:19-99 | every leaf token is read back from its spelling, in front of any text that does not run on |
| Lexer.UnquoteDoubled | src/expr.cpp:60-90 | scanning a quoted value with doubled quotes gives the value and leaves the rest |
| Lexer.KeywordText | src/condition.cpp:18-36 | every keyword the printer writes is recognised from its text |
| Phrases.LexPhrase | src/expr.cpp:292-300 | multi-word operators lex to their keywords one by one |
| Phrases.LogicSpelling | src/condition.cpp:18-36 | the literals of the source for AND, OR and NOT are the keywords of the printed tokens |
| Phrases.LikeSpelling | src/expr.cpp:252-300 | the same for LIKE, ILIKE and SIMILAR TO, plain and negated |
| Phrases.DistinctFromSpelling | src/expr.cpp:402-417 | the same for IS DISTINCT FROM and IS NOT DISTINCT FROM |
| Phrases.TestSpelling | src/expr.cpp:378-400 | the same for IS TRUE, IS FALSE, IS NULL and IS NOT NULL |
| Phrases.BetweenSpelling | src/expr.cpp:232-250 | the same for BETWEEN and NOT BETWEEN |
| Phrases.InSpelling | src/expr.cpp:324-344 | the same for IN and NOT IN |
| Phrases.QuantifierSpelling | src/expr.cpp:346-376 | the same for = ANY and <> ALL |
| Phrases.SetSpelling | src/set_op.cpp:5-8 | the same for UNION, UNION ALL, INTERSECT and EXCEPT |
| Phrases.JoinSpelling | src/join.cpp:9-23 | the same for the nine kinds of joins |
| Node.ReserveExact | src/impl/node.cpp:61-80 | for every tree of sized nodes the reserved buffer is filled exactly: the recorded size, plus two exactly when bracketed |
| Node.SizeExact | src/impl/node.hpp:30-38 | the recorded size is the rendered length |
| Render.BuildSized | src/impl/node.cpp:47-59 | every tree the constructors build records exact sizes in all its nodes |
| Render.BuildReserves | src/impl/node.cpp:61-80 | hence the buffer reserved for any expression is filled exactly, in any slot |
| Node.MakeLeaf | src/impl/node.cpp:47-52 | a leaf records the length of its text and renders to it |
| Node.MakeNode | src/impl/node.cpp:54-59 | the summing loop records the exact size, given sized children |
| Node.Buffer.AppendPart | src/impl/node.cpp:26-43 | appending a part leaves the buffer's old text and adds the part's text, brackets included, and nothing else |
| Node.Render | src/impl/node.cpp:61-67 | the rendered text of a sized node has the recorded length |
| Node.RenderWithContext | src/impl/node.cpp:69-80 | the same with the brackets of the slot, two characters more exactly when the precedence is not below the slot |
| ListNodes.BuildCallNode | src/expr.cpp:109-124 | the argument loop builds the node of a call: arguments in order, comma separated, each in an outermost slot |
| ListNodes.MakeCall | src/expr.cpp:126-129 | a call is built for exactly the dotted identifiers, with the names its text consists of |
| ListNodes.MakeCallDistinct | src/expr.cpp:131-136 | the same with DISTINCT, which also rejects exactly the empty list |
| ListNodes.BuildInListNode | src/expr.cpp:303-322 | the IN-list loop builds the node of IN or NOT IN, and rejects exactly the empty list |
| Quoting.Quote | src/expr.cpp:60-90 | the escaping loop doubles the quote everywhere, and rejects exactly the values with a NUL character |
| Quoting.QuotingExact | src/expr.cpp:60-90 | a quoted value is read back, and what follows left, if and only if the next character is not the same quote |
| Quoting.QuotingInjective | src/expr.cpp:60-90 | different values have different quoted texts |
| Identifier.ValidateIdentifier | src/impl/identifier.cpp:23-34 | the scanning loop stays inside the text, ends, and accepts exactly the dot-joined lists of plain identifiers |
| Identifier.NameCharacters | src/impl/identifier.cpp:10-19 | a plain identifier is any text of letters, digits and underscores that is not empty and begins with no digit |
| Identifier.NamesUnique | src/impl/identifier.cpp:21-34 | the list of names is determined by the text |
| Identifier.PathAccepted | src/virtual_table.cpp:21-27 | every dotted name of a well-formed tree passes the validation |
| Identifier.OperatorReadsBack | src/impl/identifier.cpp:47-60 | a text of operator characters is read as one operator if and only if it starts no comment; every name the library accepts is such a text |
| Text.JoinCsvText | src/impl/render.cpp:7-23 | `JoinCsv` intercalates commas once empty items at the front are dropped |
| Text.CsvReserveExact | src/impl/render.cpp:12-15 | the reserved size is never exceeded, and met exactly unless a first empty item drops its separator |
| Text.JoinCsvLoop | src/impl/render.cpp:17-22 | the loop over the items computes `JoinCsv` |
| Text.JoinCsvIndentedLoop | src/select_expr.cpp:77-94 | the loop puts every item on its own line, four spaces in |
| Lines.CsvLines | src/select_expr.cpp:77-94 | the lines of the list are those of its items, each four spaces in, all but the last with a comma behind |
| Lines.CsvLineAt | src/select_expr.cpp:77-94 | for items without line breaks, line i is four spaces, item i and a comma unless it is the last |
| Text.IndentBlockLoop | src/impl/render.cpp:25-38 | the loop computes `IndentBlock`, with exactly the reserved length |
| Text.IndentTwice | src/impl/render.cpp:25-38 | indenting twice is indenting by the sum |
| Text.IndentLines | src/impl/render.cpp:25-38 | indentation distributes over line breaks |
| Text.DedentIndent | src/impl/render.cpp:25-38 | removing the spaces from every line gives the text back |
| Lines.IndentedLines | src/impl/render.cpp:25-38 | the lines of the indented text are the lines of the text with that many spaces in front of each, for every text |
| Words.ValueByWord | src/virtual_table.cpp:9-31 | the exact one-line text of every table value: its keywords, names and operands in order, one space between any two, queries and joins inside others in brackets |
| Words.SelectByWord | src/select_expr.cpp:107-131 | the same for SELECT, clause by clause |
| Words.CaseByWord | src/case_builder.cpp:7-45 | the same for CASE |
| Lines.SelectByLine | src/select_expr.cpp:133-158 | the lines of the multi-line SELECT: header and every clause keyword on lines of their own, every item or operand starting a line four spaces in; all other lines are inside the text of an item |
| Lines.CtesByLine | src/with.cpp:25-39 | each common table expression is the line `name AS (`, the lines of its query four spaces in, and a closing line |
| Lines.FormattedByLine | src/with.cpp:16-45 | the lines of `ToStringFormatted` of every table value, nested WITH queries to any depth |
| Layout.LexIndent | src/impl/render.cpp:25-38 | for every text, indenting it changes its tokens only inside quoted tokens, behind their line breaks |
| Layout.IndentKeepsTokens | src/with.cpp:20-23 | indenting a text keeps its tokens if and only if none of them spans several lines |
| Layout.LexConcat | src/with.cpp:20-23 | a readable text followed by a space or line break lexes as the two parts side by side |
| Formats.FormattedLexes | src/with.cpp:16-45 | the tokens of nested multi-line WITH queries |
| Formats.FormattedMeasures | src/with.cpp:25-30 | both layouts have the same line breaks inside tokens, and the multi-line one is longer by at least four characters for each of them in a common table expression |
| Formats.LayoutsAgree | src/with.cpp:16-23 | `ToString` and `ToStringFormatted` have the same tokens if and only if no token in a common table expression spans lines |
| RenderAll.RenderExprs | src/impl/render.hpp:75-81 | the loop renders every expression of a clause, in order |
| RenderAll.As | src/expr.cpp:487-492 | an item is aliased exactly by a plain identifier, behind AS |
| RenderAll.RenderItems | src/impl/render.hpp:75-81 | the same loop for select items with their aliases |
| RenderAll.RenderTerm | src/impl/render.cpp:57-66 | direction and nulls order of an ordering term, appended step by step |
| RenderAll.RenderTerms | src/impl/render.hpp:75-81 | the same loop for ordering terms |
| SelectBuilding.SelectExpr.constructor | src/select_expr.cpp:11-12 | a new builder has only its FROM item |
| SelectBuilding.SelectExpr.Distinct | src/select_expr.cpp:14-17 | may be called any number of times |
| SelectBuilding.SelectExpr.DistinctOn | src/select_expr.cpp:23-26 | sets the clause once; a second call fails and changes nothing |
| SelectBuilding.SelectExpr.Select | src/select_expr.cpp:32-35 | the same for the select list |
| SelectBuilding.SelectExpr.Where | src/select_expr.cpp:37-40 | the same for WHERE |
| SelectBuilding.SelectExpr.GroupBy | src/select_expr.cpp:55-58 | the same for GROUP BY |
| SelectBuilding.SelectExpr.Having | src/select_expr.cpp:60-63 | the same for HAVING |
| SelectBuilding.SelectExpr.OrderBy | src/select_expr.cpp:46-49 | the same for ORDER BY |
| SelectBuilding.SelectExpr.Limit | src/select_expr.cpp:65-68 | the same for LIMIT |
| SelectBuilding.SelectExpr.Offset | src/select_expr.cpp:70-73 | the same for OFFSET |
| SelectBuilding.SelectExpr.EnsureValid | src/select_expr.cpp:98-105 | accepts exactly the states `PrintsExact` is about |
| SelectBuilding.PrintsExact | src/select_expr.cpp:98-105 | over whole programs, from any well-formed table: both layouts are printed if and only if some call gave the select list and not both DISTINCT forms were asked for |
| SelectBuilding.TextsOfValue | src/virtual_table.cpp:9-13 | what the builder prints is what the statement contributes to any other: its one-line text as a table value, and its multi-line text, with the lines of `SelectByLine` |
| SelectBuilding.SelectExpr.ToString | src/select_expr.cpp:107-131 | the concatenations give the one-line text of the statement built so far, or fail when it is not valid |
| SelectBuilding.SelectExpr.ToStringFormatted | src/select_expr.cpp:133-158 | the same for the multi-line text |
| SelectBuilding.From | src/select_expr.cpp:160 | starts a builder for exactly the table values that need no alias |
| SelectBuilding.RunFailsFresh | src/impl/render.hpp:40-51 | a run of setters throws if and only if the same setter, other than Distinct, is called twice |
| SelectBuilding.OrderIrrelevant | src/select_expr.cpp:14-73 | runs with the same calls in any order have the same outcome and the same builder, hence the same texts |
| SelectBuilding.RunHolds | src/select_expr.cpp:14-73 | nothing a successful run was told is lost |
| SelectBuilding.RunAddsNothing | src/select_expr.cpp:14-73 | a clause is set afterwards exactly when it was before or some call set it |
| SelectBuilding.RunShowsOnly | src/select_expr.cpp:14-73 | the statement has a clause, and either DISTINCT form, only if some call gave it |
| SelectBuilding.SelectRoundTrip | src/select_expr.cpp:107-158 | whatever the order of the calls, if `PrintsExact` lets them be printed, both layouts read back as a SELECT from that table in which every call shows, and nothing shows that no call made |
| WithBuilding.WithBuilder.constructor | src/with.cpp:25-30 | starts both texts with the first common table expression |
| WithBuilding.WithBuilder.With | src/with.cpp:31-40 | adds to both texts in step, or fails without change when the name is malformed or taken; names stay distinct |
| WithBuilding.WithBuilder.Finish | src/with.cpp:42-45 | both texts of the finished query are those of the whole WITH statement, the formatted one line by line: WITH, the common table expressions four spaces in, the main query |
| WithBuilding.StartWith | src/with.cpp:47-50 | rejects exactly the malformed names |
| WithBuilding.RunExact | src/with.cpp:31-50 | a run throws if and only if a name is malformed or used twice, and otherwise keeps every pair in order |
| WithBuilding.WithRoundTrip | src/with.cpp:16-23 | the finished text reads back as the calls in order and the main query; the formatted text has the same tokens exactly under the condition of `LayoutsAgree` |
| JoinBuilding.JoinBuilder.constructor | src/join.cpp:29-31 | a new join brackets its operands and has no qualifier |
| JoinBuilding.JoinBuilder.On | src/join.cpp:33-40 | fails on natural joins and on joins that have ON or USING; otherwise sets ON |
| JoinBuilding.JoinBuilder.Using | src/join.cpp:42-52 | fails in the order of the checks, with the error of each, and otherwise sets USING |
| JoinBuilding.JoinBuilder.Text | src/join.cpp:54-61 | the concatenations give the text of the join with its one qualifier |
| JoinBuilding.NaturalExact | include/iron_query/join.hpp:42-61 | a kind counts as natural if and only if the words printed for it begin with NATURAL |
| JoinBuilding.ApplyExclusive | src/join.cpp:33-52 | there is never more than one qualifier, and none on a natural join |
| JoinBuilding.RunExact | src/join.cpp:33-52 | a run goes through if and only if it is one call at most, of a join whose text has no NATURAL, with some column for USING |
| JoinBuilding.OutcomeExact | src/join.cpp:33-52 | what one more call answers after any run: success, LogicError or InvalidArgument, by the printed kind and the calls before |
| JoinBuilding.JoinRoundTrip | src/join.cpp:33-61 | a qualified join reads back with the qualifier it was given |
| VirtualTables.FromItemExact | src/virtual_table.cpp:15-19 | a table value is let into FROM if and only if its text does not read as a query: no FROM item is a bare subquery |
| VirtualTables.OperandExact | src/join.cpp:29-31 | the check looks at the whole item only: an accepted FROM text reads as a tree with a subquery without alias inside if and only if some join in it was given one, at any depth |
| VirtualTables.OperandAccepted | src/join.cpp:54-63 | for every query on the left of a cross join the text is accepted, and has such an operand |
| VirtualTables.As | src/virtual_table.cpp:21-27 | accepts exactly the dotted identifiers and gives the text of the aliased value |
| VirtualTables.AsRoundTrip | src/virtual_table.cpp:21-27 | the aliased text reads back as that table value under that name |
| CaseBuilding.CaseBuilder.When | src/case_builder.cpp:7-13 | opens a branch, or fails without change when one is open |
| CaseBuilding.CaseBuilder.Then | src/case_builder.cpp:15-29 | completes the open branch at the end of the text, or fails without change when none is open |
| CaseBuilding.CaseBuilder.Else | src/case_builder.cpp:31-34 | replaces the ELSE |
| CaseBuilding.CaseBuilder.End | src/case_builder.cpp:36-45 | the text of the CASE with the completed pairs and the last ELSE, or failure when there are none |
| CaseBuilding.RunAccepted | src/case_builder.cpp:7-34 | a run is accepted if and only if its WHEN and THEN calls alternate, WHEN first; one is left open exactly when their number is odd |
| CaseBuilding.RunPairs | src/case_builder.cpp:15-29 | the completed pairs are the WHEN and THEN arguments two by two, in order |
| CaseBuilding.CaseRoundTrip | src/case_builder.cpp:36-45 | `End` fails exactly with fewer than two such calls; otherwise its text reads back as those pairs and the last ELSE |
| InsertBuilding.EnsureSameArity | src/insert_into.cpp:16-26 | the loop accepts exactly data with one side missing, or with as many values in every row as there are columns |
| InsertBuilding.ArityExact | src/insert_into.cpp:16-26 | the check on the rendered texts is the comparison of the lengths of the argument lists |
| InsertBuilding.InsertInto.Columns | src/insert_into.cpp:30-34 | sets the columns once and then checks the arity: the fields keep the new columns even when it throws |
| InsertBuilding.InsertInto.Values | src/insert_into.cpp:36-41 | the same for one row |
| InsertBuilding.InsertInto.Rows | src/insert_into.cpp:43-51 | the same for many rows |
| InsertBuilding.InsertInto.Returning | src/insert_into.cpp:57-61 | sets the clause once |
| InsertBuilding.InsertInto.OnConflictDoUpdate | src/insert_into.cpp:75-91 | rejects exactly an empty list of assignments; otherwise the loop joins them all, and an earlier clause is replaced |
| InsertBuilding.InsertInto.ToString | src/insert_into.cpp:93-112 | prints exactly when there are columns, rows and equal arity; the text holds the rows bracketed and separated |
| InsertBuilding.RunRectangular | src/insert_into.cpp:14-51 | after any calls that returned normally, every row has exactly as many values as there are columns, or one side is missing |
| InsertBuilding.RunExact | src/insert_into.cpp:14-51 | a run goes through if and only if no field is given again after a list that is not empty, and every row of every call has the length of every column list that is not empty |
| InsertBuilding.PrintsExact | src/insert_into.cpp:93-99 | after such a run there is a text if and only if one call gave columns and one gave rows |
| InsertBuilding.EitherOrder | src/insert_into.cpp:30-51 | columns first or rows first: both succeed with the same fields or both throw |
| InsertBuilding.PairExact | src/insert_into.cpp:16-51 | a column list with a list of rows, or with one row, in either order: accepted if and only if one side is empty or all lengths are equal, and then kept as given |
| Inserts.InsertReads | src/insert_into.cpp:93-112 | token level: an INSERT is read back with its table, columns, rows, conflict clause and RETURNING |
| InsertRoundTrip.InsertLexes | src/insert_into.cpp:93-112 | the characters of an INSERT are read as those tokens |
| InsertRoundTrip.TextRoundTrip | src/insert_into.cpp:93-112 | the text of an INSERT reads back as its table, every column and row in order, the conflict clause with all its assignments, and RETURNING |
| InsertRoundTrip.RunRoundTrip | src/insert_into.cpp:28-112 | whatever calls the builder was given, once one gave columns and one gave rows its text reads back as the columns of one call and the rows of one call, whole and of equal length, with the last conflict clause and RETURNING |

## Left out

- RoundTrip.ExprRoundTrip: one-way for whole trees; the exact condition (OpenEdges.LeftExact) is for the outermost operator over operands that are themselves well-formed, so a tree with two misreadings, one inside the other, is not described.
- Numerals next to a dot: outside the round trip, with `RoundTrip.MemberExact` for the left side; a numeral never begins with its point.
- Splitting.ExprBalanced: for texts whose tokens do not glue; `--1` (MinusOfNegative) begins a comment, whose balance is that of its tokens only (Balance.PrintScans).
- Inserts.InsertReads: a column to be set by ON CONFLICT is one name, and INSERT, INTO, VALUES, CONFLICT, DO, NOTHING, UPDATE, SET and RETURNING are known by their place only, in capitals.
- Update and DeleteFrom: not modelled; they would only repeat the clauses of the others.
- Floating-point literals: `FromDouble` relies on library number formatting; numerals are digit strings with points, exponents are not modelled.
- Raw text: `FromRaw`, `CastRaw` and `Collation::FromRaw` are trusted to hold one token; `COUNT(*)`, type names of several words and raw conditions are outside the trees.
- Keywords: a bare name may not be any keyword the printer writes, in any case; this excludes names such as FIRST or OFFSET that PostgreSQL would allow.
- Operator lexing: PostgreSQL 17 documentation, section 4.1.3, cuts operators before a trailing plus or minus; here a run of operator characters is one operator, and one that starts a comment is unreadable.
- Precedences chosen by the caller: one fixed precedence for each operator name (`Dialect`), strictly between `kSymbol` and `kExtract`.
- Structure PostgreSQL asks for: set operands, bodies, main queries and subqueries are queries, and an aliased item is not aliased again (`src/table_with_columns.cpp:47-51`); a WITH query may itself have a WITH query as its main query.
- Semantic checks of SQL, such as grouping or column types: the library makes none either.
- NUL characters: rejected by `Quoting`; the lexer treats them as any other character, and an empty delimited identifier reads back although PostgreSQL rejects it.
- ON CONFLICT DO NOTHING with target columns: an easy variant of its neighbours.
- TableAlias, TableWithColumns, placeholders and exception texts: they add only easy members.
- Memory: reserved capacities are compared with lengths, but moves, sharing of nodes and use of a moved-from builder are not modelled; a failed setter of SELECT, WITH, CASE and JOIN leaves the builder unchanged, which is what the fields do.
- Locale: `isalpha` and `isalnum` are those of the C locale.
