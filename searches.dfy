/**
 * The four searches: each resolves the identifier ranges, builds its WHERE
 * predicates with a `WhereBuilder`, works out its joins and assembles the
 * statement text and the values bound to its placeholders, LIMIT and OFFSET
 * last. Preparing and running the statement is not part of the model.
 */
module Searches {
  import opened Wrappers
  import opened Params
  import opened Ranges
  import opened Sql
  import opened Filters
  import opened Joins

  /** A statement ready to be prepared: its text and the values of $1, $2, ... */
  datatype Statement = Statement(text: seq<Token>, args: seq<Value>)

  const CommandsColumns: string :=
    "commands.id, commands.status, commands.results, commands.starttime, commands.finishtime, " +
    "actions.id, actions.name, actions.target, actions.description, actions.threat, " +
    "actions.operations, actions.validfrom, actions.expireafter, actions.pgpsignatures, " +
    "actions.syntaxversion, agents.id, agents.name, agents.version, agents.tags, agents.environment"

  const ActionsColumns: string :=
    "actions.id, actions.name, actions.target,  actions.description, actions.threat, actions.operations, " +
    "actions.validfrom, actions.expireafter, actions.starttime, actions.finishtime, actions.lastupdatetime, " +
    "actions.status, actions.pgpsignatures, actions.syntaxversion "

  const AgentsColumns: string :=
    "agents.id, agents.name, agents.queueloc, agents.mode, agents.version, agents.pid, agents.starttime, " +
    "agents.destructiontime, agents.heartbeattime, agents.status"

  const InvestigatorsColumns: string :=
    "investigators.id, investigators.name, investigators.pgpfingerprint, investigators.status, " +
    "investigators.createdat, investigators.lastmodified"

  /** The text before the joins. */
  function Head(e: Entity): string {
    match e
    case Commands => "SELECT " + CommandsColumns + " FROM\tcommands"
    case Actions => "SELECT " + ActionsColumns + " FROM actions "
    case Agents => "SELECT " + AgentsColumns + " FROM agents "
    case Investigators => "SELECT " + InvestigatorsColumns + " FROM investigators "
  }

  const Where: string := " WHERE "

  /** The text between the predicates and the LIMIT placeholder. */
  function Grouping(e: Entity): string {
    match e
    case Commands => " GROUP BY commands.id, actions.id, agents.id ORDER BY commands.starttime DESC LIMIT "
    case Actions => " GROUP BY actions.id ORDER BY actions.validfrom DESC LIMIT "
    case Agents => " GROUP BY agents.id ORDER BY agents.heartbeattime DESC LIMIT "
    case Investigators => " GROUP BY investigators.id ORDER BY investigators.id ASC LIMIT "
  }

  /** The text of a list of joins. */
  function JoinTokens(js: seq<Join>): seq<Token> {
    if js == [] then [] else JoinTokens(js[..|js| - 1]) + [Lit(JoinText(js[|js| - 1]))]
  }

  /** GROUP BY, ORDER BY, and LIMIT and OFFSET on the two placeholders after `valctr`. */
  function Tail(grouping: string, valctr: nat): seq<Token> {
    [Lit(grouping), Param(valctr + 1), Lit(" OFFSET "), Param(valctr + 2), Lit(";")]
  }

  /** A statement from its pieces: head, joins, " WHERE ", the predicates and the tail, with the
      values of the predicates followed by the limit and the offset. */
  function Assemble(head: string, js: seq<Join>, cs: seq<Clause>, grouping: string, limit: nat, offset: nat): Statement {
    var vals := ArgsOf(cs);
    Statement([Lit(head)] + JoinTokens(js) + [Lit(Where)] + Render(cs) + Tail(grouping, |vals|),
              vals + [CountArg(limit), CountArg(offset)])
  }

  /** The statement a search prepares once the identifier ranges are known. */
  function Build(e: Entity, p: SearchParameters, now: int, doFoundAnything: bool, ids: IDs): Statement {
    Assemble(Head(e), JoinsFor(e, FlagsOf(e, p, now, doFoundAnything)), Clauses(e, p, now, doFoundAnything, ids),
             Grouping(e), p.limit, p.offset)
  }

  /** A search: the statement, or the first identifier that did not parse. */
  function Search(e: Entity, p: SearchParameters, now: int, doFoundAnything: bool, parse: string -> Option<Id>)
    : Result<Statement, ParseError>
  {
    match ResolveIds(p, parse)
    case Failure(err) => Failure(err)
    case Success(ids) => Success(Build(e, p, now, doFoundAnything, ids))
  }

  // ---------------------------------------------------------------------
  // Facts about the statements

  /** Joins hold no placeholder and no separator. */
  lemma {:induction false} JoinTokensInert(js: seq<Join>)
    ensures Slots(JoinTokens(js)) == [] && AndCount(JoinTokens(js)) == 0
  {
    if js != [] {
      JoinTokensInert(js[..|js| - 1]);
      SlotsAppend(JoinTokens(js[..|js| - 1]), [Lit(JoinText(js[|js| - 1]))]);
      AndCountAppend(JoinTokens(js[..|js| - 1]), [Lit(JoinText(js[|js| - 1]))]);
    }
  }

  /** A literal piece holds no placeholder and no separator. */
  lemma LitInert(t: string)
    ensures Slots([Lit(t)]) == [] && AndCount([Lit(t)]) == 0
  {
    assert [Lit(t)][..0] == [];
  }

  /** The tail holds the placeholders `valctr + 1` (LIMIT) and `valctr + 2` (OFFSET), in order,
      and no separator. */
  lemma TailFacts(grouping: string, valctr: nat)
    ensures Slots(Tail(grouping, valctr)) == [valctr + 1, valctr + 2] && AndCount(Tail(grouping, valctr)) == 0
  {
    var u := [Param(valctr + 1), Lit(" OFFSET ")];
    var v := [Param(valctr + 2), Lit(";")];
    LitInert(grouping);
    SlotsPair(valctr + 1, " OFFSET ");
    SlotsPair(valctr + 2, ";");
    assert Tail(grouping, valctr) == [Lit(grouping)] + u + v;
    SlotsAppend([Lit(grouping)], u);
    AndCountAppend([Lit(grouping)], u);
    SlotsAppend([Lit(grouping)] + u, v);
    AndCountAppend([Lit(grouping)] + u, v);
  }

  /** The text before the predicates holds no placeholder and no separator. */
  lemma PrefixInert(head: string, js: seq<Join>)
    ensures var pre := [Lit(head)] + JoinTokens(js) + [Lit(Where)];
      Slots(pre) == [] && AndCount(pre) == 0
  {
    var jt := JoinTokens(js);
    JoinTokensInert(js);
    LitInert(head);
    LitInert(Where);
    SlotsAppend([Lit(head)], jt);
    AndCountAppend([Lit(head)], jt);
    SlotsAppend([Lit(head)] + jt, [Lit(Where)]);
    AndCountAppend([Lit(head)] + jt, [Lit(Where)]);
  }

  /** Pieces without placeholders or separators in front leave the rest's unchanged. */
  lemma InertPrefix(pre: seq<Token>, r: seq<Token>, t: seq<Token>)
    requires Slots(pre) == [] && AndCount(pre) == 0
    ensures Slots(pre + r + t) == Slots(r) + Slots(t) && AndCount(pre + r + t) == AndCount(r) + AndCount(t)
  {
    SlotsAppend(pre, r);
    AndCountAppend(pre, r);
    SlotsAppend(pre + r, t);
    AndCountAppend(pre + r, t);
  }

  /** The slots of a statement are those of its predicates followed by LIMIT's and OFFSET's, and
      its separators are those of its predicates. */
  lemma AssembleSlots(head: string, js: seq<Join>, cs: seq<Clause>, grouping: string, limit: nat, offset: nat)
    ensures var st := Assemble(head, js, cs, grouping, limit, offset);
      var n := |ArgsOf(cs)|;
      Slots(st.text) == Slots(Render(cs)) + [n + 1, n + 2] && AndCount(st.text) == AndCount(Render(cs))
  {
    var n := |ArgsOf(cs)|;
    PrefixInert(head, js);
    TailFacts(grouping, n);
    InertPrefix([Lit(head)] + JoinTokens(js) + [Lit(Where)], Render(cs), Tail(grouping, n));
  }

  /** The placeholders of a statement of well-formed predicates are $1, $2, ... with no gap, one
      for each bound value; the last two are LIMIT and OFFSET and bind the limit and the offset. */
  lemma AssembleNumbering(head: string, js: seq<Join>, cs: seq<Clause>, grouping: string, limit: nat, offset: nat)
    requires AllWellFormed(cs)
    ensures var st := Assemble(head, js, cs, grouping, limit, offset);
      |Slots(st.text)| == |st.args| && NumberedFrom(Slots(st.text), 1) &&
      st.args[|st.args| - 2] == CountArg(limit) && st.args[|st.args| - 1] == CountArg(offset) &&
      st.text[|st.text| - 5] == Lit(grouping) &&
      st.text[|st.text| - 4] == Param(|st.args| - 1) && st.text[|st.text| - 2] == Param(|st.args|)
  {
    var n := |ArgsOf(cs)|;
    AssembleSlots(head, js, cs, grouping, limit, offset);
    RenderNumbering(cs);
    NumberedAppend(Slots(Render(cs)), [n + 1, n + 2], 1);
  }

  /** The separator token stands between every two predicates of a statement and nowhere else. */
  lemma AssembleSeparators(head: string, js: seq<Join>, cs: seq<Clause>, grouping: string, limit: nat, offset: nat)
    requires AllWellFormed(cs)
    ensures AndCount(Assemble(head, js, cs, grouping, limit, offset).text) == if cs == [] then 0 else |cs| - 1
  {
    AssembleSlots(head, js, cs, grouping, limit, offset);
    RenderSeparators(cs);
  }

  /** Every search statement is numbered $1, $2, ... with no gap, one placeholder for each bound
      value, and ends with LIMIT and OFFSET bound to the limit and the offset. */
  lemma BuildNumbering(e: Entity, p: SearchParameters, now: int, doFoundAnything: bool, ids: IDs)
    ensures var st := Build(e, p, now, doFoundAnything, ids);
      |Slots(st.text)| == |st.args| && NumberedFrom(Slots(st.text), 1) &&
      st.args[|st.args| - 2] == CountArg(p.limit) && st.args[|st.args| - 1] == CountArg(p.offset) &&
      st.text[|st.text| - 5] == Lit(Grouping(e)) &&
      st.text[|st.text| - 4] == Param(|st.args| - 1) && st.text[|st.text| - 2] == Param(|st.args|)
  {
    ClausesWellFormed(e, p, now, doFoundAnything, ids, |Order(e)|);
    AssembleNumbering(Head(e), JoinsFor(e, FlagsOf(e, p, now, doFoundAnything)), Clauses(e, p, now, doFoundAnything, ids),
                      Grouping(e), p.limit, p.offset);
  }

  /** A search statement has one separator token fewer than it has active filters (none without any). */
  lemma BuildSeparators(e: Entity, p: SearchParameters, now: int, doFoundAnything: bool, ids: IDs)
    ensures var k := |ActiveFilters(e, p, now, doFoundAnything)|;
      AndCount(Build(e, p, now, doFoundAnything, ids).text) == if k == 0 then 0 else k - 1
  {
    ClausesWellFormed(e, p, now, doFoundAnything, ids, |Order(e)|);
    ClausesOfActive(e, p, now, doFoundAnything, ids, |Order(e)|);
    AssembleSeparators(Head(e), JoinsFor(e, FlagsOf(e, p, now, doFoundAnything)), Clauses(e, p, now, doFoundAnything, ids),
                       Grouping(e), p.limit, p.offset);
  }

  /** Under no flag only the commands search, whose joins are fixed, joins anything. */
  lemma NoFlagsJoins(e: Entity)
    ensures JoinsFor(e, NoFlags) == if e == Commands then CommandsJoins else []
  {
    JoinsSteps(e, NoFlags);
  }

  /** A statement without predicates: " WHERE " directly followed by the tail, LIMIT and OFFSET
      numbered $1 and $2. */
  lemma AssembleEmpty(head: string, js: seq<Join>, grouping: string, limit: nat, offset: nat)
    ensures Assemble(head, js, [], grouping, limit, offset) ==
      Statement([Lit(head)] + JoinTokens(js) + [Lit(Where)] + Tail(grouping, 0), [CountArg(limit), CountArg(offset)])
  {
    var pre := [Lit(head)] + JoinTokens(js) + [Lit(Where)];
    assert pre + Render([]) == pre;
  }

  /** With the default parameters every search succeeds, whatever the parser, with no predicate:
      " WHERE " is followed directly by GROUP BY, LIMIT is $1 bound to 100 and OFFSET $2 bound
      to 0. Only the commands search joins anything. */
  lemma DefaultSearch(e: Entity, now: int, parse: string -> Option<Id>)
    ensures Search(e, NewSearchParameters(now), now, false, parse) ==
      Success(Statement([Lit(Head(e))] + JoinTokens(if e == Commands then CommandsJoins else []) + [Lit(Where)]
                        + Tail(Grouping(e), 0),
                        [CountArg(100), CountArg(0)]))
  {
    var d := NewSearchParameters(now);
    var ids := IDs(Full, Full, Full, Full);
    DefaultsResolveToFull(now, parse);
    DefaultsNoClauses(e, now, ids, |Order(e)|);
    DefaultsActivateNothing(now);
    assert FlagsOf(e, d, now, false) == NoFlags;
    NoFlagsJoins(e);
    AssembleEmpty(Head(e), JoinsFor(e, NoFlags), Grouping(e), 100, 0);
  }

  /** A search fails exactly when an identifier does not parse, and then names the first such
      field in the order action, command, agent, investigator. */
  lemma SearchFailure(e: Entity, p: SearchParameters, now: int, doFoundAnything: bool, parse: string -> Option<Id>)
    ensures Search(e, p, now, doFoundAnything, parse).Success? <==>
      Resolves(p.actionId, parse) && Resolves(p.commandId, parse) &&
      Resolves(p.agentId, parse) && Resolves(p.investigatorId, parse)
    ensures !Resolves(p.actionId, parse) ==>
      Search(e, p, now, doFoundAnything, parse) == Failure(ParseError(p.actionId))
    ensures Resolves(p.actionId, parse) && !Resolves(p.commandId, parse) ==>
      Search(e, p, now, doFoundAnything, parse) == Failure(ParseError(p.commandId))
    ensures Resolves(p.actionId, parse) && Resolves(p.commandId, parse) && !Resolves(p.agentId, parse) ==>
      Search(e, p, now, doFoundAnything, parse) == Failure(ParseError(p.agentId))
    ensures (Resolves(p.actionId, parse) && Resolves(p.commandId, parse) && Resolves(p.agentId, parse) &&
             !Resolves(p.investigatorId, parse)) ==>
      Search(e, p, now, doFoundAnything, parse) == Failure(ParseError(p.investigatorId))
  {
    ResolveIdsSuccess(p, parse);
    ResolveIdsFailure(p, parse);
  }

  /** Only the found-anything predicate binds a boolean. */
  lemma ClauseNoBool(e: Entity, f: Filter, p: SearchParameters, ids: IDs)
    requires f != FoundAnythingFilter
    ensures forall i :: 0 <= i < |ClauseFor(e, f, p, ids).args| ==> !ClauseFor(e, f, p, ids).args[i].BoolArg?
  {
  }

  /** Values without a boolean, joined, still hold none. */
  lemma NoBoolAppend(a: seq<Value>, b: seq<Value>)
    requires forall i :: 0 <= i < |a| ==> !a[i].BoolArg?
    requires forall i :: 0 <= i < |b| ==> !b[i].BoolArg?
    ensures forall i :: 0 <= i < |a + b| ==> !(a + b)[i].BoolArg?
  {
  }

  /** Without the found-anything request the first `n` predicates bind no boolean. */
  lemma {:induction false} NoBoolUpTo(e: Entity, p: SearchParameters, now: int, ids: IDs, n: nat)
    requires n <= |Order(e)|
    ensures forall i :: 0 <= i < |ArgsOf(ClausesUpTo(e, p, now, false, ids, n))| ==>
      !ArgsOf(ClausesUpTo(e, p, now, false, ids, n))[i].BoolArg?
  {
    if n > 0 {
      NoBoolUpTo(e, p, now, ids, n - 1);
      var prev := ClausesUpTo(e, p, now, false, ids, n - 1);
      var f := Order(e)[n - 1];
      if Active(f, p, now, false) {
        var c := ClauseFor(e, f, p, ids);
        assert ClausesUpTo(e, p, now, false, ids, n) == prev + [c];
        assert (prev + [c])[..|prev|] == prev;
        ClauseNoBool(e, f, p, ids);
        NoBoolAppend(ArgsOf(prev), c.args);
      } else {
        assert ClausesUpTo(e, p, now, false, ids, n) == prev + [];
        assert prev + [] == prev;
      }
    }
  }

  /** The values `w` sit side by side in `s`, starting at position `k`. */
  predicate RunAt(s: seq<Value>, k: int, w: seq<Value>) {
    0 <= k && k + |w| <= |s| && s[k..k + |w|] == w
  }

  /** The values of a clause sit side by side among the values of any list of clauses that
      holds it. */
  lemma ClauseValuesInside(cs: seq<Clause>, c: Clause)
    requires c in cs
    ensures exists k :: RunAt(ArgsOf(cs), k, c.args)
  {
    var i :| 0 <= i < |cs| && cs[i] == c;
    ArgsOfPrefix(cs, i);
    assert RunAt(ArgsOf(cs), |ArgsOf(cs[..i])|, c.args);
  }

  /** A run stays where it is when more values follow. */
  lemma RunExtends(s: seq<Value>, t: seq<Value>, k: int, w: seq<Value>)
    requires RunAt(s, k, w)
    ensures RunAt(s + t, k, w)
  {
    assert (s + t)[k..k + |w|] == s[k..k + |w|];
  }

  /** The values a search binds: those of its predicates, then the limit and the offset. */
  lemma BuildArgs(e: Entity, p: SearchParameters, now: int, doFoundAnything: bool, ids: IDs)
    ensures Build(e, p, now, doFoundAnything, ids).args ==
      ArgsOf(Clauses(e, p, now, doFoundAnything, ids)) + [CountArg(p.limit), CountArg(p.offset)]
  {
  }

  /** The predicate of every active filter is among the clauses of a search. */
  lemma ActiveClauseIn(e: Entity, f: Filter, p: SearchParameters, now: int, doFoundAnything: bool, ids: IDs)
    requires f in Order(e) && Active(f, p, now, doFoundAnything)
    ensures ClauseFor(e, f, p, ids) in Clauses(e, p, now, doFoundAnything, ids)
  {
    var fs := ActiveFilters(e, p, now, doFoundAnything);
    ActiveFiltersFacts(e, p, now, doFoundAnything);
    ClausesOfActive(e, p, now, doFoundAnything, ids, |Order(e)|);
    var i :| 0 <= i < |fs| && fs[i] == f;
    assert Clauses(e, p, now, doFoundAnything, ids)[i] == ClauseFor(e, f, p, ids);
  }

  /** The values of every active filter's predicate are bound side by side, in the predicate's
      own order. */
  lemma ActiveValuesBound(e: Entity, f: Filter, p: SearchParameters, now: int, doFoundAnything: bool, ids: IDs)
    requires f in Order(e) && Active(f, p, now, doFoundAnything)
    ensures exists k :: RunAt(Build(e, p, now, doFoundAnything, ids).args, k, ClauseFor(e, f, p, ids).args)
  {
    var cs := Clauses(e, p, now, doFoundAnything, ids);
    var c := ClauseFor(e, f, p, ids);
    ActiveClauseIn(e, f, p, now, doFoundAnything, ids);
    ClauseValuesInside(cs, c);
    var k :| RunAt(ArgsOf(cs), k, c.args);
    BuildArgs(e, p, now, doFoundAnything, ids);
    RunExtends(ArgsOf(cs), [CountArg(p.limit), CountArg(p.offset)], k, c.args);
  }

  /** The found-anything request of the commands search binds, four in a row, the success
      status, the two ends of the action range and the requested flag. */
  lemma FoundAnythingValues(p: SearchParameters, now: int, ids: IDs)
    ensures exists k :: RunAt(Build(Commands, p, now, true, ids).args, k,
      [TextArg(StatusSuccess), IdArg(ids.action.lo), IdArg(ids.action.hi), BoolArg(p.foundAnything)])
  {
    ActiveFiltersFacts(Commands, p, now, true);
    ActiveValuesBound(Commands, FoundAnythingFilter, p, now, true, ids);
  }

  /** A found-anything commands search without an action filter binds the whole range: the
      success status, 0, 2^53 - 1 and the requested flag, four in a row. */
  lemma FoundAnythingWholeRange(p: SearchParameters, now: int, parse: string -> Option<Id>)
    requires p.actionId == AnyId && ResolveIds(p, parse).Success?
    ensures exists k :: RunAt(Search(Commands, p, now, true, parse).value.args, k,
      [TextArg(StatusSuccess), IdArg(0), IdArg(MaxFloat64), BoolArg(p.foundAnything)])
  {
    var ids := ResolveIds(p, parse).value;
    ResolveIdsSuccess(p, parse);
    assert ids.action.lo == 0 && ids.action.hi == MaxFloat64;
    var args := Build(Commands, p, now, true, ids).args;
    assert Search(Commands, p, now, true, parse).value.args == args;
    FoundAnythingValues(p, now, ids);
    var w := [TextArg(StatusSuccess), IdArg(ids.action.lo), IdArg(ids.action.hi), BoolArg(p.foundAnything)];
    var k :| RunAt(args, k, w);
    assert w == [TextArg(StatusSuccess), IdArg(0), IdArg(MaxFloat64), BoolArg(p.foundAnything)];
  }

  /** No boolean among predicate values followed by the limit and the offset. */
  lemma NoBoolWithCounts(vs: seq<Value>, limit: nat, offset: nat)
    requires forall i :: 0 <= i < |vs| ==> !vs[i].BoolArg?
    ensures var s := vs + [CountArg(limit), CountArg(offset)];
      forall i :: 0 <= i < |s| ==> !s[i].BoolArg?
  {
  }

  /** Without the found-anything request no search binds a boolean value. */
  lemma NoBoolWithoutFoundAnything(e: Entity, p: SearchParameters, now: int, ids: IDs)
    ensures var args := Build(e, p, now, false, ids).args;
      forall i :: 0 <= i < |args| ==> !args[i].BoolArg?
  {
    NoBoolUpTo(e, p, now, ids, |Order(e)|);
    NoBoolWithCounts(ArgsOf(Clauses(e, p, now, false, ids)), p.limit, p.offset);
    BuildArgs(e, p, now, false, ids);
  }

  // ---------------------------------------------------------------------
  // The builders. Each filter block of a search appends its predicate when the filter is set
  // and, in the actions, agents and investigators searches, raises the join flags the
  // predicate's column needs; the two effects are modelled by two methods over the same
  // conditions, the predicates on the `WhereBuilder` and the flags on three booleans.

  /** The predicate half of one filter block: when the filter is set, its predicate joins the
      WHERE part, numbered after the values already there. */
  method AddFilter(b: WhereBuilder, e: Entity, f: Filter, p: SearchParameters, now: int, doFoundAnything: bool, ids: IDs)
    requires b.Valid()
    modifies b
    ensures b.Valid() && b.clauses == old(b.clauses) + Pick(e, f, p, now, doFoundAnything, ids)
  {
    if Active(f, p, now, doFoundAnything) {
      ClauseWidth(e, f, p, ids);
      b.Add(ClauseFor(e, f, p, ids));
    }
  }

  /** The predicates of the commands search; the found-anything one only when asked for. */
  method CommandsPredicates(p: SearchParameters, doFoundAnything: bool, now: int, ids: IDs) returns (b: WhereBuilder)
    ensures fresh(b) && b.Valid() && b.clauses == Clauses(Commands, p, now, doFoundAnything, ids)
  {
    b := new WhereBuilder();
    AddFilter(b, Commands, BeforeFilter, p, now, doFoundAnything, ids);
    AddFilter(b, Commands, AfterFilter, p, now, doFoundAnything, ids);
    AddFilter(b, Commands, CommandIdFilter, p, now, doFoundAnything, ids);
    AddFilter(b, Commands, StatusFilter, p, now, doFoundAnything, ids);
    AddFilter(b, Commands, ActionIdFilter, p, now, doFoundAnything, ids);
    AddFilter(b, Commands, ActionNameFilter, p, now, doFoundAnything, ids);
    AddFilter(b, Commands, InvestigatorIdFilter, p, now, doFoundAnything, ids);
    AddFilter(b, Commands, InvestigatorNameFilter, p, now, doFoundAnything, ids);
    AddFilter(b, Commands, AgentIdFilter, p, now, doFoundAnything, ids);
    AddFilter(b, Commands, AgentNameFilter, p, now, doFoundAnything, ids);
    AddFilter(b, Commands, FoundAnythingFilter, p, now, doFoundAnything, ids);
    AddFilter(b, Commands, ThreatFamilyFilter, p, now, doFoundAnything, ids);
    CommandsClauses(p, now, doFoundAnything, ids);
  }

  /** The joins of the commands search are fixed: actions, their signers, agents. */
  const CommandsJoins: seq<Join> := [ActionsByCommand, SignersOfAction, AgentsByCommand]

  method SearchCommands(p: SearchParameters, doFoundAnything: bool, now: int, parse: string -> Option<Id>)
    returns (r: Result<Statement, ParseError>)
    ensures r == Search(Commands, p, now, doFoundAnything, parse)
  {
    var resolved := MakeIDsFromParams(p, parse);
    if resolved.Failure? {
      return Failure(resolved.error);
    }
    var ids := resolved.value;
    var b := CommandsPredicates(p, doFoundAnything, now, ids);
    CommandsJoinsFixed(FlagsOf(Commands, p, now, doFoundAnything));
    var text := [Lit(Head(Commands))] + JoinTokens(CommandsJoins) + [Lit(Where)] + b.where + Tail(Grouping(Commands), b.valctr);
    return Success(Statement(text, b.vals + [CountArg(p.limit), CountArg(p.offset)]));
  }

  /** The predicates of the actions search up to the threat family, which it adds after its joins. */
  method ActionsPredicates(p: SearchParameters, now: int, ids: IDs) returns (b: WhereBuilder)
    ensures fresh(b) && b.Valid() && b.clauses == ClausesUpTo(Actions, p, now, false, ids, 10)
  {
    b := new WhereBuilder();
    AddFilter(b, Actions, BeforeFilter, p, now, false, ids);
    AddFilter(b, Actions, AfterFilter, p, now, false, ids);
    AddFilter(b, Actions, StatusFilter, p, now, false, ids);
    AddFilter(b, Actions, ActionIdFilter, p, now, false, ids);
    AddFilter(b, Actions, ActionNameFilter, p, now, false, ids);
    AddFilter(b, Actions, InvestigatorIdFilter, p, now, false, ids);
    AddFilter(b, Actions, InvestigatorNameFilter, p, now, false, ids);
    AddFilter(b, Actions, AgentIdFilter, p, now, false, ids);
    AddFilter(b, Actions, AgentNameFilter, p, now, false, ids);
    AddFilter(b, Actions, CommandIdFilter, p, now, false, ids);
    ActionsClauses(p, now, false, ids);
  }

  /** The join flags of the actions search: an agent filter needs the commands and the agents,
      a command filter the commands, an investigator filter the signatures and the investigators. */
  method ActionsJoinFlags(p: SearchParameters) returns (joinAgent: bool, joinInvestigator: bool, joinCommand: bool)
    ensures Flags(false, joinCommand, joinAgent, joinInvestigator) == ActionsExpected(p)
  {
    joinAgent, joinInvestigator, joinCommand := false, false, false;
    if p.investigatorId != AnyId {
      joinInvestigator := true;
    }
    if p.investigatorName != AnyPattern {
      joinInvestigator := true;
    }
    if p.agentId != AnyId {
      joinAgent := true;
      joinCommand := true;
    }
    if p.agentName != AnyPattern {
      joinAgent := true;
      joinCommand := true;
    }
    if p.commandId != AnyId {
      joinCommand := true;
    }
  }

  /** The joins of the actions search: commands, then agents, then signatures and investigators. */
  method ActionsJoins(joinCommand: bool, joinAgent: bool, joinInvestigator: bool) returns (join: seq<Join>)
    ensures join == JoinsFor(Actions, Flags(false, joinCommand, joinAgent, joinInvestigator))
  {
    join := [];
    if joinCommand {
      join := join + [CommandsByAction];
    }
    if joinAgent {
      join := join + [AgentsByCommand];
    }
    if joinInvestigator {
      join := join + [SignersOfAction];
    }
    JoinsSteps(Actions, Flags(false, joinCommand, joinAgent, joinInvestigator));
  }

  method SearchActions(p: SearchParameters, now: int, parse: string -> Option<Id>) returns (r: Result<Statement, ParseError>)
    ensures r == Search(Actions, p, now, false, parse)
  {
    var resolved := MakeIDsFromParams(p, parse);
    if resolved.Failure? {
      return Failure(resolved.error);
    }
    var ids := resolved.value;
    var b := ActionsPredicates(p, now, ids);
    var joinAgent, joinInvestigator, joinCommand := ActionsJoinFlags(p);
    var join := ActionsJoins(joinCommand, joinAgent, joinInvestigator);
    AddFilter(b, Actions, ThreatFamilyFilter, p, now, false, ids);
    ActionsClauses(p, now, false, ids);
    ActionsFlags(p, now, false);
    var text := [Lit(Head(Actions))] + JoinTokens(join) + [Lit(Where)] + b.where + Tail(Grouping(Actions), b.valctr);
    return Success(Statement(text, b.vals + [CountArg(p.limit), CountArg(p.offset)]));
  }

  /** The predicates of the agents search. */
  method AgentsPredicates(p: SearchParameters, now: int, ids: IDs) returns (b: WhereBuilder)
    ensures fresh(b) && b.Valid() && b.clauses == Clauses(Agents, p, now, false, ids)
  {
    b := new WhereBuilder();
    AddFilter(b, Agents, BeforeFilter, p, now, false, ids);
    AddFilter(b, Agents, AfterFilter, p, now, false, ids);
    AddFilter(b, Agents, AgentIdFilter, p, now, false, ids);
    AddFilter(b, Agents, AgentNameFilter, p, now, false, ids);
    AddFilter(b, Agents, StatusFilter, p, now, false, ids);
    AddFilter(b, Agents, ActionIdFilter, p, now, false, ids);
    AddFilter(b, Agents, ActionNameFilter, p, now, false, ids);
    AddFilter(b, Agents, ThreatFamilyFilter, p, now, false, ids);
    AddFilter(b, Agents, InvestigatorIdFilter, p, now, false, ids);
    AddFilter(b, Agents, InvestigatorNameFilter, p, now, false, ids);
    AddFilter(b, Agents, CommandIdFilter, p, now, false, ids);
    AgentsClauses(p, now, false, ids);
  }

  /** The join flags of the agents search: an action filter (id, name, threat family) needs the
      commands and the actions, an investigator filter the signatures and the investigators as
      well, a command filter the commands. */
  method AgentsJoinFlags(p: SearchParameters) returns (joinAction: bool, joinInvestigator: bool, joinCommand: bool)
    ensures Flags(joinAction, joinCommand, false, joinInvestigator) == AgentsExpected(p)
  {
    joinAction, joinInvestigator, joinCommand := false, false, false;
    if p.actionId != AnyId {
      joinAction := true;
      joinCommand := true;
    }
    if p.actionName != AnyPattern {
      joinAction := true;
      joinCommand := true;
    }
    if p.threatFamily != AnyPattern {
      joinAction := true;
      joinCommand := true;
    }
    if p.investigatorId != AnyId {
      joinInvestigator := true;
      joinCommand := true;
      joinAction := true;
    }
    if p.investigatorName != AnyPattern {
      joinInvestigator := true;
      joinCommand := true;
      joinAction := true;
    }
    if p.commandId != AnyId {
      joinCommand := true;
    }
  }

  /** The joins of the agents search: commands, then actions, then signatures and investigators. */
  method AgentsJoins(joinCommand: bool, joinAction: bool, joinInvestigator: bool) returns (join: seq<Join>)
    ensures join == JoinsFor(Agents, Flags(joinAction, joinCommand, false, joinInvestigator))
  {
    join := [];
    if joinCommand {
      join := join + [CommandsByAgent];
    }
    if joinAction {
      join := join + [ActionsByCommand];
    }
    if joinInvestigator {
      join := join + [SignersOfAction];
    }
    JoinsSteps(Agents, Flags(joinAction, joinCommand, false, joinInvestigator));
  }

  method SearchAgents(p: SearchParameters, now: int, parse: string -> Option<Id>) returns (r: Result<Statement, ParseError>)
    ensures r == Search(Agents, p, now, false, parse)
  {
    var resolved := MakeIDsFromParams(p, parse);
    if resolved.Failure? {
      return Failure(resolved.error);
    }
    var ids := resolved.value;
    var b := AgentsPredicates(p, now, ids);
    var joinAction, joinInvestigator, joinCommand := AgentsJoinFlags(p);
    var join := AgentsJoins(joinCommand, joinAction, joinInvestigator);
    AgentsFlags(p, now, false);
    var text := [Lit(Head(Agents))] + JoinTokens(join) + [Lit(Where)] + b.where + Tail(Grouping(Agents), b.valctr);
    return Success(Statement(text, b.vals + [CountArg(p.limit), CountArg(p.offset)]));
  }

  /** The predicates of the investigators search. */
  method InvestigatorsPredicates(p: SearchParameters, now: int, ids: IDs) returns (b: WhereBuilder)
    ensures fresh(b) && b.Valid() && b.clauses == Clauses(Investigators, p, now, false, ids)
  {
    b := new WhereBuilder();
    AddFilter(b, Investigators, BeforeFilter, p, now, false, ids);
    AddFilter(b, Investigators, AfterFilter, p, now, false, ids);
    AddFilter(b, Investigators, InvestigatorIdFilter, p, now, false, ids);
    AddFilter(b, Investigators, InvestigatorNameFilter, p, now, false, ids);
    AddFilter(b, Investigators, StatusFilter, p, now, false, ids);
    AddFilter(b, Investigators, ActionIdFilter, p, now, false, ids);
    AddFilter(b, Investigators, ActionNameFilter, p, now, false, ids);
    AddFilter(b, Investigators, ThreatFamilyFilter, p, now, false, ids);
    AddFilter(b, Investigators, CommandIdFilter, p, now, false, ids);
    AddFilter(b, Investigators, AgentIdFilter, p, now, false, ids);
    AddFilter(b, Investigators, AgentNameFilter, p, now, false, ids);
    InvestigatorsClauses(p, now, false, ids);
  }

  /** The join flags of the investigators search: an action filter (id, name, threat family)
      needs the signatures and the actions, a command filter the commands as well, an agent
      filter the agents too. */
  method InvestigatorsJoinFlags(p: SearchParameters) returns (joinAction: bool, joinAgent: bool, joinCommand: bool)
    ensures Flags(joinAction, joinCommand, joinAgent, false) == InvestigatorsExpected(p)
  {
    joinAction, joinAgent, joinCommand := false, false, false;
    if p.actionId != AnyId {
      joinAction := true;
    }
    if p.actionName != AnyPattern {
      joinAction := true;
    }
    if p.threatFamily != AnyPattern {
      joinAction := true;
    }
    if p.commandId != AnyId {
      joinCommand := true;
      joinAction := true;
    }
    if p.agentId != AnyId {
      joinCommand := true;
      joinAction := true;
      joinAgent := true;
    }
    if p.agentName != AnyPattern {
      joinCommand := true;
      joinAction := true;
      joinAgent := true;
    }
  }

  /** The joins of the investigators search: signatures and actions, then commands, then agents. */
  method InvestigatorsJoins(joinAction: bool, joinCommand: bool, joinAgent: bool) returns (join: seq<Join>)
    ensures join == JoinsFor(Investigators, Flags(joinAction, joinCommand, joinAgent, false))
  {
    join := [];
    if joinAction {
      join := join + [ActionsOfInvestigator];
    }
    if joinCommand {
      join := join + [CommandsByAction];
    }
    if joinAgent {
      join := join + [AgentsByCommand];
    }
    JoinsSteps(Investigators, Flags(joinAction, joinCommand, joinAgent, false));
  }

  method SearchInvestigators(p: SearchParameters, now: int, parse: string -> Option<Id>) returns (r: Result<Statement, ParseError>)
    ensures r == Search(Investigators, p, now, false, parse)
  {
    var resolved := MakeIDsFromParams(p, parse);
    if resolved.Failure? {
      return Failure(resolved.error);
    }
    var ids := resolved.value;
    var b := InvestigatorsPredicates(p, now, ids);
    var joinAction, joinAgent, joinCommand := InvestigatorsJoinFlags(p);
    var join := InvestigatorsJoins(joinAction, joinCommand, joinAgent);
    InvestigatorsFlags(p, now, false);
    var text := [Lit(Head(Investigators))] + JoinTokens(join) + [Lit(Where)] + b.where + Tail(Grouping(Investigators), b.valctr);
    return Success(Statement(text, b.vals + [CountArg(p.limit), CountArg(p.offset)]));
  }
}
