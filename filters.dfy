/**
 * The predicate tables of the four searches: which filters each search
 * checks, in which order, and the clause each active filter contributes.
 */
module Filters {
  import opened Seqs
  import opened Params
  import opened Ranges
  import opened Sql

  /** What a search returns. */
  datatype Entity = Commands | Actions | Agents | Investigators

  /** The status a command has when it ran to completion. */
  const StatusSuccess: string := "success"

  /** The filters a search checks, in the order its code checks them. */
  function Order(e: Entity): seq<Filter> {
    match e
    case Commands =>
      [BeforeFilter, AfterFilter, CommandIdFilter, StatusFilter, ActionIdFilter, ActionNameFilter,
       InvestigatorIdFilter, InvestigatorNameFilter, AgentIdFilter, AgentNameFilter,
       FoundAnythingFilter, ThreatFamilyFilter]
    case Actions =>
      [BeforeFilter, AfterFilter, StatusFilter, ActionIdFilter, ActionNameFilter,
       InvestigatorIdFilter, InvestigatorNameFilter, AgentIdFilter, AgentNameFilter,
       CommandIdFilter, ThreatFamilyFilter]
    case Agents =>
      [BeforeFilter, AfterFilter, AgentIdFilter, AgentNameFilter, StatusFilter,
       ActionIdFilter, ActionNameFilter, ThreatFamilyFilter,
       InvestigatorIdFilter, InvestigatorNameFilter, CommandIdFilter]
    case Investigators =>
      [BeforeFilter, AfterFilter, InvestigatorIdFilter, InvestigatorNameFilter, StatusFilter,
       ActionIdFilter, ActionNameFilter, ThreatFamilyFilter, CommandIdFilter,
       AgentIdFilter, AgentNameFilter]
  }

  /** The column both time bounds of a search compare with; `upper` selects the Before bound. */
  function TimeColumn(e: Entity, upper: bool): Column {
    match e
    case Commands => Column("commands", "starttime")
    case Actions => if upper then Column("actions", "expireafter") else Column("actions", "validfrom")
    case Agents => Column("agents", "heartbeattime")
    case Investigators => Column("investigators", "lastmodified")
  }

  /** The qualifier of the status column. The actions search writes `action`, as in its source. */
  function StatusQualifier(e: Entity): string {
    match e
    case Commands => "commands"
    case Actions => "action"
    case Agents => "agents"
    case Investigators => "investigators"
  }

  /** An identifier range as the two values of a `Between` clause. */
  function RangeArgs(r: IdRange): seq<Value> {
    [IdArg(r.lo), IdArg(r.hi)]
  }

  /** The column a filter's predicate compares with, in a given search. */
  function ColumnOf(e: Entity, f: Filter): Column {
    match f
    case BeforeFilter => TimeColumn(e, true)
    case AfterFilter => TimeColumn(e, false)
    case StatusFilter => Column(StatusQualifier(e), "status")
    case ActionIdFilter => Column("actions", "id")
    case ActionNameFilter => Column("actions", "name")
    case CommandIdFilter => Column("commands", "id")
    case AgentIdFilter => Column("agents", "id")
    case AgentNameFilter => Column("agents", "name")
    case InvestigatorIdFilter => Column("investigators", "id")
    case InvestigatorNameFilter => Column("investigators", "name")
    case ThreatFamilyFilter => Column("actions", "threat#>>'{family}'")
    case FoundAnythingFilter => Column("commands", "status")
  }

  /** The form of a filter's predicate. */
  function ShapeOf(f: Filter): Shape {
    match f
    case BeforeFilter => AtMost
    case AfterFilter => AtLeast
    case ActionIdFilter => Between
    case CommandIdFilter => Between
    case AgentIdFilter => Between
    case InvestigatorIdFilter => Between
    case ThreatFamilyFilter => LikeSpaced
    case FoundAnythingFilter => FoundAnything
    case _ => Like
  }

  /** The values a filter binds, in placeholder order. */
  function ArgsFor(f: Filter, p: SearchParameters, ids: IDs): seq<Value> {
    match f
    case BeforeFilter => [TimeArg(p.before)]
    case AfterFilter => [TimeArg(p.after)]
    case StatusFilter => [TextArg(p.status)]
    case ActionIdFilter => RangeArgs(ids.action)
    case ActionNameFilter => [TextArg(p.actionName)]
    case CommandIdFilter => RangeArgs(ids.command)
    case AgentIdFilter => RangeArgs(ids.agent)
    case AgentNameFilter => [TextArg(p.agentName)]
    case InvestigatorIdFilter => RangeArgs(ids.investigator)
    case InvestigatorNameFilter => [TextArg(p.investigatorName)]
    case ThreatFamilyFilter => [TextArg(p.threatFamily)]
    case FoundAnythingFilter => [TextArg(StatusSuccess), IdArg(ids.action.lo), IdArg(ids.action.hi), BoolArg(p.foundAnything)]
  }

  /** The clause a filter contributes to a search. */
  function ClauseFor(e: Entity, f: Filter, p: SearchParameters, ids: IDs): Clause {
    Clause(ColumnOf(e, f), ShapeOf(f), ArgsFor(f, p, ids))
  }

  /** How many placeholders a filter takes: two for an identifier range, four for the
      found-anything predicate, one for a pattern or a time bound. */
  lemma ClauseWidth(e: Entity, f: Filter, p: SearchParameters, ids: IDs)
    ensures WellFormed(ClauseFor(e, f, p, ids))
    ensures f in {ActionIdFilter, CommandIdFilter, AgentIdFilter, InvestigatorIdFilter} ==>
      Width(ClauseFor(e, f, p, ids).shape) == 2
    ensures f == FoundAnythingFilter ==> Width(ClauseFor(e, f, p, ids).shape) == 4
    ensures f !in {ActionIdFilter, CommandIdFilter, AgentIdFilter, InvestigatorIdFilter, FoundAnythingFilter} ==>
      Width(ClauseFor(e, f, p, ids).shape) == 1
  {
  }

  /** The clause of a filter when it is active, nothing otherwise. */
  function Pick(e: Entity, f: Filter, p: SearchParameters, now: int, doFoundAnything: bool, ids: IDs): seq<Clause> {
    if Active(f, p, now, doFoundAnything) then [ClauseFor(e, f, p, ids)] else []
  }

  /** The active filters among the first `n` a search checks. */
  function ActiveUpTo(e: Entity, p: SearchParameters, now: int, doFoundAnything: bool, n: nat): seq<Filter>
    requires n <= |Order(e)|
  {
    if n == 0 then []
    else
      var f := Order(e)[n - 1];
      ActiveUpTo(e, p, now, doFoundAnything, n - 1) + (if Active(f, p, now, doFoundAnything) then [f] else [])
  }

  /** The clauses of the first `n` filters a search checks. */
  function ClausesUpTo(e: Entity, p: SearchParameters, now: int, doFoundAnything: bool, ids: IDs, n: nat): seq<Clause>
    requires n <= |Order(e)|
  {
    if n == 0 then []
    else ClausesUpTo(e, p, now, doFoundAnything, ids, n - 1) + Pick(e, Order(e)[n - 1], p, now, doFoundAnything, ids)
  }

  /** The active filters of a search, in its order. */
  function ActiveFilters(e: Entity, p: SearchParameters, now: int, doFoundAnything: bool): seq<Filter> {
    ActiveUpTo(e, p, now, doFoundAnything, |Order(e)|)
  }

  /** The WHERE clauses of a search. */
  function Clauses(e: Entity, p: SearchParameters, now: int, doFoundAnything: bool, ids: IDs): seq<Clause> {
    ClausesUpTo(e, p, now, doFoundAnything, ids, |Order(e)|)
  }

  // ---------------------------------------------------------------------
  // Facts

  /** A search checks each filter at most once. */
  lemma OrderNoDup(e: Entity)
    ensures NoDup(Order(e))
  {
  }

  /** The filters the searches check: the found-anything filter only in the commands search. */
  lemma OrderMembers(e: Entity)
    ensures FoundAnythingFilter in Order(e) <==> e == Commands
    ensures forall f :: f != FoundAnythingFilter ==> f in Order(e)
  {
  }

  /** The active filters of the first `n` keep the search's order. */
  lemma {:induction false} ActiveUpToOrdered(e: Entity, p: SearchParameters, now: int, doFoundAnything: bool, n: nat)
    requires n <= |Order(e)|
    ensures IsSubseq(ActiveUpTo(e, p, now, doFoundAnything, n), Order(e)[..n])
  {
    if n > 0 {
      ActiveUpToOrdered(e, p, now, doFoundAnything, n - 1);
      var f := Order(e)[n - 1];
      var prev := ActiveUpTo(e, p, now, doFoundAnything, n - 1);
      assert Order(e)[..n] == Order(e)[..n - 1] + [f];
      var keep := Active(f, p, now, doFoundAnything);
      SubseqSnoc(prev, Order(e)[..n - 1], f, keep);
      if !keep {
        assert ActiveUpTo(e, p, now, doFoundAnything, n) == prev + [] == prev;
      }
    }
  }

  /** A filter is among the active filters of the first `n` exactly when it is among the
      first `n` and active. */
  lemma {:induction false} ActiveUpToMembers(e: Entity, p: SearchParameters, now: int, doFoundAnything: bool, n: nat)
    requires n <= |Order(e)|
    ensures forall f :: f in ActiveUpTo(e, p, now, doFoundAnything, n) <==>
      f in Order(e)[..n] && Active(f, p, now, doFoundAnything)
  {
    if n > 0 {
      ActiveUpToMembers(e, p, now, doFoundAnything, n - 1);
      var g := Order(e)[n - 1];
      var prev := ActiveUpTo(e, p, now, doFoundAnything, n - 1);
      var here := ActiveUpTo(e, p, now, doFoundAnything, n);
      assert Order(e)[..n] == Order(e)[..n - 1] + [g];
      forall f
        ensures f in here <==> f in Order(e)[..n] && Active(f, p, now, doFoundAnything)
      {
        if Active(g, p, now, doFoundAnything) {
          assert here == prev + [g];
        } else {
          assert here == prev;
        }
      }
    }
  }

  /** The predicates of a search are its active filters, in the order the code checks them,
      each at most once. */
  lemma ActiveFiltersFacts(e: Entity, p: SearchParameters, now: int, doFoundAnything: bool)
    ensures IsSubseq(ActiveFilters(e, p, now, doFoundAnything), Order(e))
    ensures NoDup(ActiveFilters(e, p, now, doFoundAnything))
    ensures forall f :: f in ActiveFilters(e, p, now, doFoundAnything) <==> f in Order(e) && Active(f, p, now, doFoundAnything)
  {
    ActiveUpToOrdered(e, p, now, doFoundAnything, |Order(e)|);
    ActiveUpToMembers(e, p, now, doFoundAnything, |Order(e)|);
    assert Order(e)[..|Order(e)|] == Order(e);
    OrderNoDup(e);
    SubseqNoDup(ActiveFilters(e, p, now, doFoundAnything), Order(e));
  }

  /** The clauses are the clauses of the active filters, one for one. */
  lemma {:induction false} ClausesOfActive(e: Entity, p: SearchParameters, now: int, doFoundAnything: bool, ids: IDs, n: nat)
    requires n <= |Order(e)|
    ensures var fs := ActiveUpTo(e, p, now, doFoundAnything, n);
      var cs := ClausesUpTo(e, p, now, doFoundAnything, ids, n);
      |cs| == |fs| && forall i :: 0 <= i < |cs| ==> cs[i] == ClauseFor(e, fs[i], p, ids)
  {
    if n > 0 {
      ClausesOfActive(e, p, now, doFoundAnything, ids, n - 1);
    }
  }

  /** Every clause of a search is well formed. */
  lemma {:induction false} ClausesWellFormed(e: Entity, p: SearchParameters, now: int, doFoundAnything: bool, ids: IDs, n: nat)
    requires n <= |Order(e)|
    ensures AllWellFormed(ClausesUpTo(e, p, now, doFoundAnything, ids, n))
  {
    if n > 0 {
      ClausesWellFormed(e, p, now, doFoundAnything, ids, n - 1);
      ClauseWidth(e, Order(e)[n - 1], p, ids);
    }
  }

  /** With the defaults, and without the found-anything request, no search has a predicate. */
  lemma {:induction false} DefaultsNoClauses(e: Entity, now: int, ids: IDs, n: nat)
    requires n <= |Order(e)|
    ensures ClausesUpTo(e, NewSearchParameters(now), now, false, ids, n) == []
  {
    if n > 0 {
      DefaultsNoClauses(e, now, ids, n - 1);
      DefaultsActivateNothing(now);
    }
  }

  /** One step of the clause list. */
  lemma ClausesStep(e: Entity, p: SearchParameters, now: int, doFoundAnything: bool, ids: IDs, n: nat)
    requires n < |Order(e)|
    ensures ClausesUpTo(e, p, now, doFoundAnything, ids, n + 1) ==
      ClausesUpTo(e, p, now, doFoundAnything, ids, n) + Pick(e, Order(e)[n], p, now, doFoundAnything, ids)
  {
  }

  /** The clauses of the commands search, filter by filter. */
  lemma CommandsClauses(p: SearchParameters, now: int, doFoundAnything: bool, ids: IDs)
    ensures Clauses(Commands, p, now, doFoundAnything, ids) == []
        + Pick(Commands, BeforeFilter, p, now, doFoundAnything, ids)
        + Pick(Commands, AfterFilter, p, now, doFoundAnything, ids)
        + Pick(Commands, CommandIdFilter, p, now, doFoundAnything, ids)
        + Pick(Commands, StatusFilter, p, now, doFoundAnything, ids)
        + Pick(Commands, ActionIdFilter, p, now, doFoundAnything, ids)
        + Pick(Commands, ActionNameFilter, p, now, doFoundAnything, ids)
        + Pick(Commands, InvestigatorIdFilter, p, now, doFoundAnything, ids)
        + Pick(Commands, InvestigatorNameFilter, p, now, doFoundAnything, ids)
        + Pick(Commands, AgentIdFilter, p, now, doFoundAnything, ids)
        + Pick(Commands, AgentNameFilter, p, now, doFoundAnything, ids)
        + Pick(Commands, FoundAnythingFilter, p, now, doFoundAnything, ids)
        + Pick(Commands, ThreatFamilyFilter, p, now, doFoundAnything, ids)
  {
    ClausesStep(Commands, p, now, doFoundAnything, ids, 0);
    ClausesStep(Commands, p, now, doFoundAnything, ids, 1);
    ClausesStep(Commands, p, now, doFoundAnything, ids, 2);
    ClausesStep(Commands, p, now, doFoundAnything, ids, 3);
    ClausesStep(Commands, p, now, doFoundAnything, ids, 4);
    ClausesStep(Commands, p, now, doFoundAnything, ids, 5);
    ClausesStep(Commands, p, now, doFoundAnything, ids, 6);
    ClausesStep(Commands, p, now, doFoundAnything, ids, 7);
    ClausesStep(Commands, p, now, doFoundAnything, ids, 8);
    ClausesStep(Commands, p, now, doFoundAnything, ids, 9);
    ClausesStep(Commands, p, now, doFoundAnything, ids, 10);
    ClausesStep(Commands, p, now, doFoundAnything, ids, 11);
  }

  /** The clauses of the actions search, filter by filter: the first ten, then the threat
      family, which that search adds after its joins. */
  lemma ActionsClauses(p: SearchParameters, now: int, doFoundAnything: bool, ids: IDs)
    ensures ClausesUpTo(Actions, p, now, doFoundAnything, ids, 10) == []
        + Pick(Actions, BeforeFilter, p, now, doFoundAnything, ids)
        + Pick(Actions, AfterFilter, p, now, doFoundAnything, ids)
        + Pick(Actions, StatusFilter, p, now, doFoundAnything, ids)
        + Pick(Actions, ActionIdFilter, p, now, doFoundAnything, ids)
        + Pick(Actions, ActionNameFilter, p, now, doFoundAnything, ids)
        + Pick(Actions, InvestigatorIdFilter, p, now, doFoundAnything, ids)
        + Pick(Actions, InvestigatorNameFilter, p, now, doFoundAnything, ids)
        + Pick(Actions, AgentIdFilter, p, now, doFoundAnything, ids)
        + Pick(Actions, AgentNameFilter, p, now, doFoundAnything, ids)
        + Pick(Actions, CommandIdFilter, p, now, doFoundAnything, ids)
    ensures Clauses(Actions, p, now, doFoundAnything, ids)
        == ClausesUpTo(Actions, p, now, doFoundAnything, ids, 10) + Pick(Actions, ThreatFamilyFilter, p, now, doFoundAnything, ids)
  {
    ClausesStep(Actions, p, now, doFoundAnything, ids, 0);
    ClausesStep(Actions, p, now, doFoundAnything, ids, 1);
    ClausesStep(Actions, p, now, doFoundAnything, ids, 2);
    ClausesStep(Actions, p, now, doFoundAnything, ids, 3);
    ClausesStep(Actions, p, now, doFoundAnything, ids, 4);
    ClausesStep(Actions, p, now, doFoundAnything, ids, 5);
    ClausesStep(Actions, p, now, doFoundAnything, ids, 6);
    ClausesStep(Actions, p, now, doFoundAnything, ids, 7);
    ClausesStep(Actions, p, now, doFoundAnything, ids, 8);
    ClausesStep(Actions, p, now, doFoundAnything, ids, 9);
    ClausesStep(Actions, p, now, doFoundAnything, ids, 10);
  }

  /** The clauses of the agents search, filter by filter. */
  lemma AgentsClauses(p: SearchParameters, now: int, doFoundAnything: bool, ids: IDs)
    ensures Clauses(Agents, p, now, doFoundAnything, ids) == []
        + Pick(Agents, BeforeFilter, p, now, doFoundAnything, ids)
        + Pick(Agents, AfterFilter, p, now, doFoundAnything, ids)
        + Pick(Agents, AgentIdFilter, p, now, doFoundAnything, ids)
        + Pick(Agents, AgentNameFilter, p, now, doFoundAnything, ids)
        + Pick(Agents, StatusFilter, p, now, doFoundAnything, ids)
        + Pick(Agents, ActionIdFilter, p, now, doFoundAnything, ids)
        + Pick(Agents, ActionNameFilter, p, now, doFoundAnything, ids)
        + Pick(Agents, ThreatFamilyFilter, p, now, doFoundAnything, ids)
        + Pick(Agents, InvestigatorIdFilter, p, now, doFoundAnything, ids)
        + Pick(Agents, InvestigatorNameFilter, p, now, doFoundAnything, ids)
        + Pick(Agents, CommandIdFilter, p, now, doFoundAnything, ids)
  {
    ClausesStep(Agents, p, now, doFoundAnything, ids, 0);
    ClausesStep(Agents, p, now, doFoundAnything, ids, 1);
    ClausesStep(Agents, p, now, doFoundAnything, ids, 2);
    ClausesStep(Agents, p, now, doFoundAnything, ids, 3);
    ClausesStep(Agents, p, now, doFoundAnything, ids, 4);
    ClausesStep(Agents, p, now, doFoundAnything, ids, 5);
    ClausesStep(Agents, p, now, doFoundAnything, ids, 6);
    ClausesStep(Agents, p, now, doFoundAnything, ids, 7);
    ClausesStep(Agents, p, now, doFoundAnything, ids, 8);
    ClausesStep(Agents, p, now, doFoundAnything, ids, 9);
    ClausesStep(Agents, p, now, doFoundAnything, ids, 10);
  }

  /** The clauses of the investigators search, filter by filter. */
  lemma InvestigatorsClauses(p: SearchParameters, now: int, doFoundAnything: bool, ids: IDs)
    ensures Clauses(Investigators, p, now, doFoundAnything, ids) == []
        + Pick(Investigators, BeforeFilter, p, now, doFoundAnything, ids)
        + Pick(Investigators, AfterFilter, p, now, doFoundAnything, ids)
        + Pick(Investigators, InvestigatorIdFilter, p, now, doFoundAnything, ids)
        + Pick(Investigators, InvestigatorNameFilter, p, now, doFoundAnything, ids)
        + Pick(Investigators, StatusFilter, p, now, doFoundAnything, ids)
        + Pick(Investigators, ActionIdFilter, p, now, doFoundAnything, ids)
        + Pick(Investigators, ActionNameFilter, p, now, doFoundAnything, ids)
        + Pick(Investigators, ThreatFamilyFilter, p, now, doFoundAnything, ids)
        + Pick(Investigators, CommandIdFilter, p, now, doFoundAnything, ids)
        + Pick(Investigators, AgentIdFilter, p, now, doFoundAnything, ids)
        + Pick(Investigators, AgentNameFilter, p, now, doFoundAnything, ids)
  {
    ClausesStep(Investigators, p, now, doFoundAnything, ids, 0);
    ClausesStep(Investigators, p, now, doFoundAnything, ids, 1);
    ClausesStep(Investigators, p, now, doFoundAnything, ids, 2);
    ClausesStep(Investigators, p, now, doFoundAnything, ids, 3);
    ClausesStep(Investigators, p, now, doFoundAnything, ids, 4);
    ClausesStep(Investigators, p, now, doFoundAnything, ids, 5);
    ClausesStep(Investigators, p, now, doFoundAnything, ids, 6);
    ClausesStep(Investigators, p, now, doFoundAnything, ids, 7);
    ClausesStep(Investigators, p, now, doFoundAnything, ids, 8);
    ClausesStep(Investigators, p, now, doFoundAnything, ids, 9);
    ClausesStep(Investigators, p, now, doFoundAnything, ids, 10);
  }
}
