# Search-query builder of the MIG database layer

This project models the search-query builder of `database/searches.go` in Dafny. The builder turns a sparse
`SearchParameters` filter into a prepared statement for one of four searches: commands, actions, agents or
investigators. A statement has three parts:

- the WHERE predicates, with positional placeholders `$1 … $n`;
- the values bound to those placeholders, with LIMIT and OFFSET last;
- the INNER JOINs that the set filters need.

It also models the defaults (`NewSearchParameters`), the canonical query string (`SearchParameters.String`) and
the identifier-range resolver (`makeIDsFromParams`).

The model follows the code's own shape:

- Each search is a method that resolves the ranges and then fills a `WhereBuilder` object one filter block at
  a time. The builder's state is the WHERE tokens, the bound values and the counter `valctr`.
- Join flags are set by the same `if` blocks as in the source, and the joins are emitted in the source's order.
- The four search methods are proved to compute the specification function `Search`. `MakeIDsFromParams` is
  proved to compute `ResolveIds`, and `QueryString` to compute `Encode(QueryPairs(…))`.
- The step methods are proved against the functions that define one step:
  - `AppendKey` against `Piece`;
  - `AddFilter` against `Pick`;
  - `WhereBuilder.Add` against `Sep`, `Emit` and the clause's values, which is what `Render` and `ArgsOf` unfold to;
  - the `XPredicates` methods against `ClausesUpTo` and `Clauses`;
  - the `XJoinFlags` methods against the closed-form flags `XExpected`;
  - the `XJoins` methods against `JoinsFor`.
- The invariants are proved about those functions.

Modules, one per concern:

- `Params`: parameters, defaults, the sentinels `∞` and `%`, when a filter is active, and the query string.
- `Ranges`: identifier ranges and the resolver.
- `Sql`: tokens, clauses, the rendering of the WHERE part, and the `WhereBuilder` class.
- `Filters`: per search, the filters it checks, in its order, the clause of each filter, and the clause list.
- `Joins`: join flags, the emission order, and scoping.
- `Searches`: statement assembly, the four search methods, and statement-level facts.
- `Wrappers` and `Seqs`: `Option`/`Result`, and subsequence and no-duplicate helpers.

Statement text is a sequence of tokens: a literal, the separator token (the `" AND "` written between two
predicates), or a numbered placeholder. A line break and the indentation after it, in the source's multi-line SQL
literals, are written as one space. Blanks within one line are kept as the source writes them.

Where the model departs from the source's text:

- The commands search writes its four fixed joins inside one literal (database/searches.go:160-164). The model
  builds them from the same join values the other searches use. The join clauses name the same tables and
  conditions, but the blanks differ (see "## Left out").
- The model keeps the source's oddities as written:
  - the `action.status` qualifier of the actions search, which names no joined table;
  - the 39600-hour window;
  - an empty WHERE part when no filter is set, so the text reads `WHERE  GROUP BY`.

## Model

| member | source | states |
|---|---|---|
| Params.NewSearchParameters | database/searches.go:45-62 | the defaults: every identifier filter at `∞`, every pattern at `%`, a window of 39600 hours on each side of the clock reading, limit 100, offset 0 and type `action` |
| Params.Active | database/searches.go:168-261 | when a filter's block fires: a time bound more than an hour inside the default window, a field away from its sentinel, or the found-anything argument (likewise at 370-467, 562-653 and 728-816) |
| Params.DefaultsActivateNothing | database/searches.go:46-62 | with the default parameters no filter is active, not even a time bound |
| Params.TimeWindowTolerance | database/searches.go:168-180 | the Before predicate appears iff Before < now + 39600h − 1h, and the After predicate iff After > now − (39600h − 1h) |
| Params.DefaultsAcrossClocks | database/searches.go:47-48 | defaults built at t0 and tested at a later reading: within the hour no time bound is a predicate, after the hour the Before bound is, and the After bound never is |
| Params.KeyAt | database/searches.go:66-97 | the order in which `String` writes its keys: type, after, before, then one `if` block per key, limit and offset last |
| Params.Name | database/searches.go:66-97 | the name each block writes before `=` |
| Params.Emits | database/searches.go:66-97 | the condition of each block: type, after, before and limit always, a pattern or identifier away from its sentinel, offset when it is not zero |
| Params.ValueOf | database/searches.go:66-97 | the value each block writes: the field itself, the formatted time for after and before, the formatted number for limit and offset |
| Params.AppendKey | database/searches.go:67-69 | one `if` block of `String`: it appends `&key=value` exactly when the field left its sentinel |
| Params.QueryString | database/searches.go:65-98 | growing the string field by field ends with the encoding of the canonical pair list |
| Params.QueryText | database/searches.go:66-97 | the string is `type`, `after`, `before`, then the piece of each key in the fixed order |
| Params.QueryPairsExact | database/searches.go:66-97 | the string lists a key iff it is written, each once, in the fixed order, each with its own value |
| Params.QueryStringShape | database/searches.go:66-94 | the string starts with type, after and before, and always carries limit |
| Params.DefaultQueryString | database/searches.go:46-98 | with the defaults the string is exactly type, the window and `limit=100` |
| Ranges.MakeIDsFromParams | database/searches.go:107-145 | the field-by-field resolver with early returns computes `ResolveIds` |
| Ranges.ResolveIdsSuccess | database/searches.go:107-145 | resolving succeeds iff every field is the sentinel or parses; a sentinel gives [0, 2^53−1] and a value v gives [v, v] |
| Ranges.ResolveIdsFailure | database/searches.go:110-143 | the error names the first field, in the order action, command, agent, investigator, that does not parse |
| Ranges.ResolvedRangesOrdered | database/searches.go:108-143 | every resolved range has lo ≤ hi |
| Ranges.DefaultsResolveToFull | database/searches.go:46-62 | the defaults resolve, under any parser, to four full ranges |
| Sql.WhereBuilder.constructor | database/searches.go:166-167 | an empty WHERE part, no values, and `valctr` = 0 (the other searches also start from `where := ""`, at 367, 559 and 725) |
| Sql.Template | database/searches.go:168-268 | the format strings of the predicates around their placeholders: `<=`, `>=`, the two-sided range, `ILIKE` with or without a trailing blank, and the found-anything subquery at 252-257 (`FoundSubquery`); one piece more than placeholders; likewise in the other searches |
| Sql.WhereBuilder.Add | database/searches.go:173-179 | one predicate step: `" AND "` iff valctr > 0, the clause numbered from valctr + 1, its values appended, valctr advanced by the clause's width, and `valctr == \|vals\|` kept |
| Sql.EmitSlots | database/searches.go:183-185 | a clause uses exactly the next Width placeholders after valctr, in order, and holds no separator |
| Sql.RenderNumbering | database/searches.go:166-268 | the WHERE placeholders are $1, $2, … with no gap, one per bound value |
| Sql.RenderSeparators | database/searches.go:166-268 | the WHERE part has one separator token fewer than it has predicates (the `" AND "` inside a range or the found-anything subquery is literal text, not a separator) |
| Sql.SeparatorIffEarlier | database/searches.go:173-175 | the separator token comes before a predicate exactly when an earlier predicate was emitted |
| Sql.ArgsOfPrefix | database/searches.go:166-268 | each predicate's values sit right after those of the predicates before it |
| Filters.Order | database/searches.go:168-268 | the filters of the commands search in the order of its blocks; the other searches in the order of theirs at 370-474, 562-662 and 728-826 |
| Filters.ColumnOf | database/searches.go:168-268 | the column each predicate compares with, as the block literals write it, including the time column of each search and the actions search's `action.status` |
| Filters.ShapeOf | database/searches.go:168-268 | which format each block uses: `<=` for Before, `>=` for After, a range for the identifiers, `ILIKE` for the patterns (with a trailing blank for threat family), and the subquery for found-anything |
| Filters.ArgsFor | database/searches.go:168-268 | the values each block appends to `vals`: a time bound, a pattern, the two ends of an identifier range, or success, the action range and the flag |
| Filters.ClauseWidth | database/searches.go:181-259 | every predicate binds one value per placeholder: an id range takes 2, found-anything 4, and a pattern or time bound 1 |
| Filters.OrderMembers | database/searches.go:248-259 | only the commands search has the found-anything filter; every search checks every other filter |
| Filters.ActiveFiltersFacts | database/searches.go:166-268 | the predicates are the active filters, in the order the code checks them, each at most once |
| Filters.ClausesOfActive | database/searches.go:166-268 | the clauses correspond one for one to the active filters |
| Filters.DefaultsNoClauses | database/searches.go:46-62 | with the defaults and no found-anything request, no search has a predicate |
| Filters.CommandsClauses | database/searches.go:168-268 | the commands predicates, block by block in source order |
| Filters.ActionsClauses | database/searches.go:370-474 | the actions predicates in source order, threat family last |
| Filters.AgentsClauses | database/searches.go:562-662 | the agents predicates in source order |
| Filters.InvestigatorsClauses | database/searches.go:728-826 | the investigators predicates in source order |
| Joins.Raise | database/searches.go:407-455 | the flags each actions block sets; likewise the agents blocks at 600-662 and the investigators blocks at 766-826; the commands search sets none |
| Joins.Emission | database/searches.go:457-466 | the joins the actions search may emit, in its order; likewise the agents at 663-672 and the investigators at 827-836, and the commands search's fixed joins at 160-164 |
| Joins.Wants | database/searches.go:457-466 | the flag that guards each join of the actions search; likewise the agents at 663-672 and the investigators at 827-836; the commands joins are unconditional |
| Joins.JoinText | database/searches.go:457-466 | the text of each join, with its blanks, as the actions, agents (663-672) and investigators (827-836) searches append it |
| Joins.ActiveRaises | database/searches.go:407-455 | every flag an active filter's block sets is set |
| Joins.FlagsCoherent | database/searches.go:426-455 | the flag implications hold: joinAgent ⇒ joinCommand (actions), joinInvestigator ⇒ joinAction ⇒ joinCommand (agents), joinAgent ⇒ joinCommand ⇒ joinAction (investigators) |
| Joins.ActionsFlags | database/searches.go:407-456 | actions flags: an agent filter sets agent and command, a command filter sets command, an investigator filter sets investigator |
| Joins.AgentsFlags | database/searches.go:600-662 | agents flags: an action filter sets action and command, an investigator filter sets all three, a command filter sets command |
| Joins.InvestigatorsFlags | database/searches.go:766-826 | investigators flags: an action filter sets action, a command filter sets command and action, an agent filter sets all three |
| Joins.CommandsJoinsFixed | database/searches.go:160-164 | the commands search joins actions, signatures and investigators, and agents, whatever its filters |
| Joins.JoinsForFacts | database/searches.go:457-466 | the joins come in the emission order, each at most once, and a join is emitted iff its flag is set |
| Joins.JoinsScoped | database/searches.go:457-466 | under coherent flags each join's ON condition names only tables already in scope, and no table is joined twice |
| Joins.ColumnsInScope | database/searches.go:457-466 | every column an active predicate compares with belongs to a table in scope, except the actions status column |
| Joins.ActionsStatusUnbound | database/searches.go:383-390 | the actions status predicate is qualified by `action`, which names no table |
| Searches.Head | database/searches.go:156-165 | the SELECT list and FROM of the commands search; the others at 363-365, 555-557 and 722-723, formatted at 475, 673 and 837 |
| Searches.Grouping | database/searches.go:269-271 | the GROUP BY and ORDER BY of the commands search up to its LIMIT placeholder; the others at 475-476, 673-674 and 837-838 |
| Searches.Tail | database/searches.go:269-270 | `LIMIT $n+1 OFFSET $n+2;` after the n predicate values; likewise at 475-476, 673-674 and 837-838 |
| Searches.Build | database/searches.go:148-271 | a statement is the head, the joins the flags call for, " WHERE ", the predicates, and the tail, with the predicates' values followed by Limit and Offset (likewise at 475-478, 673-676 and 837-840) |
| Searches.AddFilter | database/searches.go:181-188 | one filter block: the filter's clause is appended iff the filter is set, and the builder stays valid |
| Searches.CommandsPredicates | database/searches.go:168-268 | the builder ends holding the commands clauses, the found-anything one only when requested |
| Searches.SearchCommands | database/searches.go:148-271 | the commands search returns `Search(Commands, …)`: the resolver's error, or the assembled statement |
| Searches.ActionsPredicates | database/searches.go:370-455 | the builder holds the actions clauses up to the command filter |
| Searches.ActionsJoinFlags | database/searches.go:407-456 | the flags the actions blocks set equal the flags inferred from the active filters |
| Searches.ActionsJoins | database/searches.go:457-466 | the actions joins are emitted in the order commands, agents, signatures with investigators |
| Searches.SearchActions | database/searches.go:354-478 | the actions search returns `Search(Actions, …)`, with threat family added after the joins |
| Searches.AgentsPredicates | database/searches.go:562-662 | the builder holds the agents clauses |
| Searches.AgentsJoinFlags | database/searches.go:600-662 | the flags the agents blocks set equal the inferred flags |
| Searches.AgentsJoins | database/searches.go:663-672 | the agents joins are emitted in the order commands, actions, signatures with investigators |
| Searches.SearchAgents | database/searches.go:546-676 | the agents search returns `Search(Agents, …)` |
| Searches.InvestigatorsPredicates | database/searches.go:728-826 | the builder holds the investigators clauses |
| Searches.InvestigatorsJoinFlags | database/searches.go:766-826 | the flags the investigators blocks set equal the inferred flags |
| Searches.InvestigatorsJoins | database/searches.go:827-836 | the investigators joins are emitted in the order signatures with actions, commands, agents |
| Searches.SearchInvestigators | database/searches.go:713-840 | the investigators search returns `Search(Investigators, …)` |
| Searches.SearchFailure | database/searches.go:152-155 | a search fails iff an identifier does not parse, and then returns the first such field, with no statement |
| Searches.AssembleNumbering | database/searches.go:475-478 | placeholders of a statement run $1 … $n with no gap, one per value; the last two are LIMIT and OFFSET, bound to the limit and the offset |
| Searches.BuildNumbering | database/searches.go:166-271 | every search statement is numbered $1 … $n, one per value, and LIMIT and OFFSET take the last two slots, bound to Limit and Offset |
| Searches.BuildSeparators | database/searches.go:166-268 | a search statement has one separator token fewer than it has active filters |
| Searches.AssembleEmpty | database/searches.go:475-478 | without predicates `" WHERE "` is directly followed by GROUP BY, and LIMIT and OFFSET are $1 and $2 |
| Searches.DefaultSearch | database/searches.go:46-62 | with the defaults every search succeeds with no predicate; LIMIT is $1 bound to 100 and OFFSET is $2 bound to 0; only the commands search joins |
| Searches.ActiveValuesBound | database/searches.go:166-268 | the values of each active predicate are bound side by side, in the predicate's order |
| Searches.FoundAnythingValues | database/searches.go:248-259 | the found-anything request binds success, the action range ends and the flag, in four consecutive slots |
| Searches.FoundAnythingWholeRange | database/searches.go:248-259 | without an action filter that range is 0 to 2^53−1 |
| Searches.NoBoolWithoutFoundAnything | database/searches.go:248-259 | without the found-anything request no search binds a boolean |

## Left out

- Preparing and running the statement is not modelled: `db.c.Prepare`, the query, the row loop and closing
  the statement are database I/O. The model stops at the statement text and its values.
- Decoding the JSON columns and filling in `mig` records is not modelled. These are foreign library calls on
  types that are not part of this model.
- `GetActionCounters` and `InvestigatorByActionID` are enrichment queries defined elsewhere.
- `strconv.ParseFloat` becomes a parser parameter `string -> Option<Id>`, and identifiers are naturals no
  larger than 2^53−1. `ParseDecimal` is only an example parser. `ParseFloat` also accepts inputs such as `-1`,
  `1.5`, `1e300`, `NaN` and `Inf`, which the source binds as the range [v, v]. None of these values is an `Id`,
  so the model does not represent such a range.
- `uint64(p.Limit)`, `uint64(p.Offset)` and `%.0f` formatting are not modelled. Limit and Offset are naturals,
  and the query string formats numbers through a function parameter.
- `time.Now` becomes the parameter `now`, in nanoseconds. The RFC 3339 formatter is a function parameter.
  `NewSearchParameters` reads the clock twice (database/searches.go:47-48), and each search reads it once per time
  test (168 and 173, and likewise in the other searches). The model uses one reading for both defaults and one
  reading for both tests of a search. `DefaultsAcrossClocks` relates a construction reading to a later test reading.
- The package constant `mig.StatusSuccess` is taken to be `"success"`.
- The meaning of the SQL (ILIKE, JSON paths, grouping, the correlated subquery) is not modelled. Only the
  clause structure and the bound values are.
- Spacing: a line break and the indentation after it, inside a multi-line SQL literal, are one space. Blanks
  within one line are kept. The commands search's fixed
  joins at database/searches.go:160-164 use the join texts of the other searches. The text then differs in
  its blanks from the source in three ways:
  - `( commands.actionid = actions.id )` has a blank before the closing parenthesis;
  - consecutive joins are separated by two blanks, as in `actions.id )  INNER JOIN signatures`;
  - the last join is followed by two blanks before WHERE, as in `agents.id )  WHERE`.
  The source has one run of white space at each of these places.
- Each filter block sets up to two things: the predicate and the join flags. The model runs them in two methods,
  `XPredicates` and `XJoinFlags`, over the same conditions and in the same order. Interleaving them is not observable.
  The join text is built by `XJoins` from the flags, as in the source.
