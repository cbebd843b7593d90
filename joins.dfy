/**
 * Join inference. A search reads one base table; a filter on a column of
 * another table raises flags, and after the predicates the search emits, in
 * a fixed order, the join of every raised flag. The commands search always
 * joins the same tables.
 */
module Joins {
  import opened Wrappers
  import opened Seqs
  import opened Params
  import opened Filters

  datatype Table = ActionsTable | CommandsTable | AgentsTable | SignaturesTable | InvestigatorsTable

  function TableName(t: Table): string {
    match t
    case ActionsTable => "actions"
    case CommandsTable => "commands"
    case AgentsTable => "agents"
    case SignaturesTable => "signatures"
    case InvestigatorsTable => "investigators"
  }

  /** The table a column qualifier names, if any. */
  function TableNamed(q: string): (r: Option<Table>)
    ensures r.Some? ==> TableName(r.value) == q
    ensures r.None? ==> forall t :: TableName(t) != q
  {
    if q == "actions" then Some(ActionsTable)
    else if q == "commands" then Some(CommandsTable)
    else if q == "agents" then Some(AgentsTable)
    else if q == "signatures" then Some(SignaturesTable)
    else if q == "investigators" then Some(InvestigatorsTable)
    else None
  }

  /** The table a search selects from. */
  function Base(e: Entity): Table {
    match e
    case Commands => CommandsTable
    case Actions => ActionsTable
    case Agents => AgentsTable
    case Investigators => InvestigatorsTable
  }

  /** The join clauses the searches emit. */
  datatype Join =
    | CommandsByAction        // commands of an action
    | CommandsByAgent         // commands sent to an agent
    | ActionsByCommand        // the action of a command
    | AgentsByCommand         // the agent of a command
    | SignersOfAction         // signatures of an action, then their investigators
    | ActionsOfInvestigator   // signatures of an investigator, then their actions

  function JoinText(j: Join): string {
    match j
    case CommandsByAction => "INNER JOIN commands ON ( commands.actionid = actions.id) "
    case CommandsByAgent => "INNER JOIN commands ON ( commands.agentid = agents.id) "
    case ActionsByCommand => " INNER JOIN actions ON ( commands.actionid = actions.id ) "
    case AgentsByCommand => " INNER JOIN agents ON ( commands.agentid = agents.id ) "
    case SignersOfAction =>
      " INNER JOIN signatures ON ( actions.id = signatures.actionid ) INNER JOIN investigators ON ( signatures.investigatorid = investigators.id ) "
    case ActionsOfInvestigator =>
      " INNER JOIN signatures ON ( signatures.investigatorid = investigators.id )  INNER JOIN actions ON ( actions.id = signatures.actionid ) "
  }

  /** The tables a join brings into the query. */
  function Adds(j: Join): set<Table> {
    match j
    case CommandsByAction => {CommandsTable}
    case CommandsByAgent => {CommandsTable}
    case ActionsByCommand => {ActionsTable}
    case AgentsByCommand => {AgentsTable}
    case SignersOfAction => {SignaturesTable, InvestigatorsTable}
    case ActionsOfInvestigator => {SignaturesTable, ActionsTable}
  }

  /** The tables the ON conditions of a join name. */
  function Refs(j: Join): set<Table> {
    match j
    case CommandsByAction => {CommandsTable, ActionsTable}
    case CommandsByAgent => {CommandsTable, AgentsTable}
    case ActionsByCommand => {CommandsTable, ActionsTable}
    case AgentsByCommand => {CommandsTable, AgentsTable}
    case SignersOfAction => {ActionsTable, SignaturesTable, InvestigatorsTable}
    case ActionsOfInvestigator => {InvestigatorsTable, SignaturesTable, ActionsTable}
  }

  // ---------------------------------------------------------------------
  // Flags

  /** The join flags of a search; each search uses three of the four. */
  datatype Flags = Flags(action: bool, command: bool, agent: bool, investigator: bool)

  const NoFlags: Flags := Flags(false, false, false, false)

  /** Every flag raised in `a` is raised in `b`. */
  predicate Below(a: Flags, b: Flags) {
    (a.action ==> b.action) && (a.command ==> b.command) && (a.agent ==> b.agent) && (a.investigator ==> b.investigator)
  }

  /** The flags a filter's branch raises in a search. */
  function Raise(e: Entity, f: Filter): Flags {
    match e
    case Commands => NoFlags
    case Actions =>
      match f {
        case InvestigatorIdFilter => Flags(false, false, false, true)
        case InvestigatorNameFilter => Flags(false, false, false, true)
        case AgentIdFilter => Flags(false, true, true, false)
        case AgentNameFilter => Flags(false, true, true, false)
        case CommandIdFilter => Flags(false, true, false, false)
        case _ => NoFlags
      }
    case Agents =>
      match f {
        case ActionIdFilter => Flags(true, true, false, false)
        case ActionNameFilter => Flags(true, true, false, false)
        case ThreatFamilyFilter => Flags(true, true, false, false)
        case InvestigatorIdFilter => Flags(true, true, false, true)
        case InvestigatorNameFilter => Flags(true, true, false, true)
        case CommandIdFilter => Flags(false, true, false, false)
        case _ => NoFlags
      }
    case Investigators =>
      match f {
        case ActionIdFilter => Flags(true, false, false, false)
        case ActionNameFilter => Flags(true, false, false, false)
        case ThreatFamilyFilter => Flags(true, false, false, false)
        case CommandIdFilter => Flags(true, true, false, false)
        case AgentIdFilter => Flags(true, true, true, false)
        case AgentNameFilter => Flags(true, true, true, false)
        case _ => NoFlags
      }
  }

  /** A flag of a search is raised when an active filter's branch raises it. */
  function FlagsOf(e: Entity, p: SearchParameters, now: int, doFoundAnything: bool): Flags {
    Flags(exists f :: f in Order(e) && Active(f, p, now, doFoundAnything) && Raise(e, f).action,
          exists f :: f in Order(e) && Active(f, p, now, doFoundAnything) && Raise(e, f).command,
          exists f :: f in Order(e) && Active(f, p, now, doFoundAnything) && Raise(e, f).agent,
          exists f :: f in Order(e) && Active(f, p, now, doFoundAnything) && Raise(e, f).investigator)
  }

  /** The flags an active filter raises are raised. */
  lemma ActiveRaises(e: Entity, f: Filter, p: SearchParameters, now: int, doFoundAnything: bool)
    requires f in Order(e) && Active(f, p, now, doFoundAnything)
    ensures Below(Raise(e, f), FlagsOf(e, p, now, doFoundAnything))
  {
  }

  /** The implications between the flags of a search: a join's ON condition names a table
      that an earlier join brings in. */
  predicate Coherent(e: Entity, fl: Flags) {
    match e
    case Commands => true
    case Actions => fl.agent ==> fl.command
    case Agents => (fl.investigator ==> fl.action) && (fl.action ==> fl.command)
    case Investigators => (fl.agent ==> fl.command) && (fl.command ==> fl.action)
  }

  /** Every branch raises coherent flags. */
  lemma RaiseCoherent(e: Entity, f: Filter)
    ensures Coherent(e, Raise(e, f))
  {
    match e
    case Commands =>
    case Actions =>
    case Agents =>
    case Investigators =>
      match f {
        case BeforeFilter => case AfterFilter => case StatusFilter =>
        case ActionIdFilter => case ActionNameFilter => case CommandIdFilter =>
        case AgentIdFilter => case AgentNameFilter => case InvestigatorIdFilter =>
        case InvestigatorNameFilter => case ThreatFamilyFilter => case FoundAnythingFilter =>
      }
  }

  /** The flags of a search are coherent, since every branch raises coherent flags. */
  lemma FlagsCoherent(e: Entity, p: SearchParameters, now: int, doFoundAnything: bool)
    ensures Coherent(e, FlagsOf(e, p, now, doFoundAnything))
  {
    forall f
      ensures Coherent(e, Raise(e, f))
    {
      RaiseCoherent(e, f);
    }
  }

  // ---------------------------------------------------------------------
  // Emission

  /** The joins a search may emit, in the order it emits them. */
  function Emission(e: Entity): seq<Join> {
    match e
    case Commands => [ActionsByCommand, SignersOfAction, AgentsByCommand]
    case Actions => [CommandsByAction, AgentsByCommand, SignersOfAction]
    case Agents => [CommandsByAgent, ActionsByCommand, SignersOfAction]
    case Investigators => [ActionsOfInvestigator, CommandsByAction, AgentsByCommand]
  }

  /** Whether a search emits a join under the given flags. */
  predicate Wants(e: Entity, fl: Flags, j: Join) {
    match e
    case Commands => true
    case Actions =>
      (j == CommandsByAction && fl.command) || (j == AgentsByCommand && fl.agent) ||
      (j == SignersOfAction && fl.investigator)
    case Agents =>
      (j == CommandsByAgent && fl.command) || (j == ActionsByCommand && fl.action) ||
      (j == SignersOfAction && fl.investigator)
    case Investigators =>
      (j == ActionsOfInvestigator && fl.action) || (j == CommandsByAction && fl.command) ||
      (j == AgentsByCommand && fl.agent)
  }

  /** The joins emitted among the first `n` of a search's emission order. */
  function JoinsUpTo(e: Entity, fl: Flags, n: nat): seq<Join>
    requires n <= |Emission(e)|
  {
    if n == 0 then []
    else
      var j := Emission(e)[n - 1];
      JoinsUpTo(e, fl, n - 1) + (if Wants(e, fl, j) then [j] else [])
  }

  /** The joins a search emits under the given flags. */
  function JoinsFor(e: Entity, fl: Flags): seq<Join> {
    JoinsUpTo(e, fl, |Emission(e)|)
  }

  /** The joins of a search, spelled out. */
  lemma JoinsSteps(e: Entity, fl: Flags)
    ensures var E := Emission(e);
      JoinsFor(e, fl) ==
        [] + (if Wants(e, fl, E[0]) then [E[0]] else [])
           + (if Wants(e, fl, E[1]) then [E[1]] else [])
           + (if Wants(e, fl, E[2]) then [E[2]] else [])
  {
    assert JoinsUpTo(e, fl, 1) == [] + (if Wants(e, fl, Emission(e)[0]) then [Emission(e)[0]] else []);
    assert JoinsUpTo(e, fl, 2) == JoinsUpTo(e, fl, 1) + (if Wants(e, fl, Emission(e)[1]) then [Emission(e)[1]] else []);
  }

  /** The commands search joins the same tables whatever its filters. */
  lemma CommandsJoinsFixed(fl: Flags)
    ensures JoinsFor(Commands, fl) == [ActionsByCommand, SignersOfAction, AgentsByCommand]
  {
    JoinsSteps(Commands, fl);
  }

  /** A search joins each table at most once. */
  lemma EmissionNoDup(e: Entity)
    ensures NoDup(Emission(e))
  {
  }

  lemma {:induction false} JoinsUpToOrdered(e: Entity, fl: Flags, n: nat)
    requires n <= |Emission(e)|
    ensures IsSubseq(JoinsUpTo(e, fl, n), Emission(e)[..n])
  {
    if n > 0 {
      JoinsUpToOrdered(e, fl, n - 1);
      var j := Emission(e)[n - 1];
      var prev := JoinsUpTo(e, fl, n - 1);
      assert Emission(e)[..n] == Emission(e)[..n - 1] + [j];
      SubseqSnoc(prev, Emission(e)[..n - 1], j, Wants(e, fl, j));
      if !Wants(e, fl, j) {
        assert JoinsUpTo(e, fl, n) == prev + [] == prev;
      }
    }
  }

  lemma {:induction false} JoinsUpToMembers(e: Entity, fl: Flags, n: nat)
    requires n <= |Emission(e)|
    ensures forall j :: j in JoinsUpTo(e, fl, n) <==> j in Emission(e)[..n] && Wants(e, fl, j)
  {
    if n > 0 {
      JoinsUpToMembers(e, fl, n - 1);
      var g := Emission(e)[n - 1];
      var prev := JoinsUpTo(e, fl, n - 1);
      var here := JoinsUpTo(e, fl, n);
      assert Emission(e)[..n] == Emission(e)[..n - 1] + [g];
      forall j
        ensures j in here <==> j in Emission(e)[..n] && Wants(e, fl, j)
      {
        if Wants(e, fl, g) {
          assert here == prev + [g];
        } else {
          assert here == prev;
        }
      }
    }
  }

  /** The joins of a search come in its emission order, each at most once, and a join is
      emitted exactly when the search wants it. */
  lemma JoinsForFacts(e: Entity, fl: Flags)
    ensures IsSubseq(JoinsFor(e, fl), Emission(e))
    ensures NoDup(JoinsFor(e, fl))
    ensures forall j :: j in JoinsFor(e, fl) <==> j in Emission(e) && Wants(e, fl, j)
  {
    JoinsUpToOrdered(e, fl, |Emission(e)|);
    JoinsUpToMembers(e, fl, |Emission(e)|);
    assert Emission(e)[..|Emission(e)|] == Emission(e);
    EmissionNoDup(e);
    SubseqNoDup(JoinsFor(e, fl), Emission(e));
  }

  // ---------------------------------------------------------------------
  // Scoping

  /** The tables in scope after a list of joins. */
  function Reach(base: Table, js: seq<Join>): set<Table> {
    if js == [] then {base} else Reach(base, js[..|js| - 1]) + Adds(js[|js| - 1])
  }

  /** Each join names only tables in scope or its own, and brings in only tables not yet there. */
  predicate Scoped(base: Table, js: seq<Join>) {
    js == [] ||
    (var init := js[..|js| - 1];
     var j := js[|js| - 1];
     Scoped(base, init) && Refs(j) <= Reach(base, init) + Adds(j) && Adds(j) !! Reach(base, init))
  }

  /** The tables in scope after the first `n` joins of a search's emission order. */
  function ReachUpTo(e: Entity, fl: Flags, n: nat): set<Table>
    requires n <= |Emission(e)|
  {
    if n == 0 then {Base(e)}
    else
      var j := Emission(e)[n - 1];
      ReachUpTo(e, fl, n - 1) + (if Wants(e, fl, j) then Adds(j) else {})
  }

  /** The step a join adds to the scope is sound when the flags are coherent. */
  lemma JoinStepScoped(e: Entity, fl: Flags, n: nat)
    requires Coherent(e, fl) && n < |Emission(e)| && Wants(e, fl, Emission(e)[n])
    ensures Refs(Emission(e)[n]) <= ReachUpTo(e, fl, n) + Adds(Emission(e)[n])
    ensures Adds(Emission(e)[n]) !! ReachUpTo(e, fl, n)
  {
    if n >= 1 {
      assert ReachUpTo(e, fl, 1) == {Base(e)} + (if Wants(e, fl, Emission(e)[0]) then Adds(Emission(e)[0]) else {});
    }
  }

  lemma ReachSnoc(base: Table, js: seq<Join>, j: Join)
    ensures Reach(base, js + [j]) == Reach(base, js) + Adds(j)
  {
    assert (js + [j])[..|js|] == js;
  }

  /** A join that may or may not be emitted adds its tables to the scope exactly when it is. */
  lemma ReachMaybe(base: Table, js: seq<Join>, j: Join, wanted: bool)
    ensures Reach(base, js + (if wanted then [j] else [])) == Reach(base, js) + (if wanted then Adds(j) else {})
  {
    if wanted {
      ReachSnoc(base, js, j);
    } else {
      assert js + [] == js;
      assert Reach(base, js) + {} == Reach(base, js);
    }
  }

  /** One more join of the emission order, emitted or not, and the scope it adds. */
  lemma UpToStep(e: Entity, fl: Flags, n: nat)
    requires 0 < n <= |Emission(e)|
    ensures var j := Emission(e)[n - 1];
      JoinsUpTo(e, fl, n) == JoinsUpTo(e, fl, n - 1) + (if Wants(e, fl, j) then [j] else []) &&
      ReachUpTo(e, fl, n) == ReachUpTo(e, fl, n - 1) + (if Wants(e, fl, j) then Adds(j) else {})
  {
  }

  /** The scope of the emitted joins is the scope the emission order builds. */
  lemma {:induction false} ReachMatches(e: Entity, fl: Flags, n: nat)
    requires n <= |Emission(e)|
    ensures Reach(Base(e), JoinsUpTo(e, fl, n)) == ReachUpTo(e, fl, n)
  {
    if n > 0 {
      ReachMatches(e, fl, n - 1);
      var j := Emission(e)[n - 1];
      UpToStep(e, fl, n);
      ReachMaybe(Base(e), JoinsUpTo(e, fl, n - 1), j, Wants(e, fl, j));
    }
  }

  lemma {:induction false} JoinsUpToScoped(e: Entity, fl: Flags, n: nat)
    requires Coherent(e, fl) && n <= |Emission(e)|
    ensures Scoped(Base(e), JoinsUpTo(e, fl, n))
  {
    if n > 0 {
      JoinsUpToScoped(e, fl, n - 1);
      var j := Emission(e)[n - 1];
      var prev := JoinsUpTo(e, fl, n - 1);
      if Wants(e, fl, j) {
        ReachMatches(e, fl, n - 1);
        JoinStepScoped(e, fl, n - 1);
        var here := prev + [j];
        assert here[..|here| - 1] == prev;
        assert JoinsUpTo(e, fl, n) == here;
      } else {
        assert JoinsUpTo(e, fl, n) == prev + [] == prev;
      }
    }
  }

  /** Under coherent flags every join of a search is scoped: its ON condition names the base
      table or tables brought in before it, and no table is joined twice. */
  lemma JoinsScoped(e: Entity, fl: Flags)
    requires Coherent(e, fl)
    ensures Scoped(Base(e), JoinsFor(e, fl))
    ensures Reach(Base(e), JoinsFor(e, fl)) == ReachUpTo(e, fl, |Emission(e)|)
  {
    JoinsUpToScoped(e, fl, |Emission(e)|);
    ReachMatches(e, fl, |Emission(e)|);
  }

  /** The scope a search's emission order builds, spelled out. */
  lemma ReachSteps(e: Entity, fl: Flags)
    ensures var E := Emission(e);
      ReachUpTo(e, fl, |E|) ==
        {Base(e)} + (if Wants(e, fl, E[0]) then Adds(E[0]) else {})
                  + (if Wants(e, fl, E[1]) then Adds(E[1]) else {})
                  + (if Wants(e, fl, E[2]) then Adds(E[2]) else {})
  {
    assert ReachUpTo(e, fl, 1) == {Base(e)} + (if Wants(e, fl, Emission(e)[0]) then Adds(Emission(e)[0]) else {});
    assert ReachUpTo(e, fl, 2) == ReachUpTo(e, fl, 1) + (if Wants(e, fl, Emission(e)[1]) then Adds(Emission(e)[1]) else {});
  }

  /** A filter's column names a table in scope of a commands search, whose joins are fixed. */
  lemma CommandsColumnInScope(f: Filter, fl: Flags)
    requires f in Order(Commands)
    ensures TableNamed(ColumnOf(Commands, f).qualifier).Some?
    ensures TableNamed(ColumnOf(Commands, f).qualifier).value in ReachUpTo(Commands, fl, |Emission(Commands)|)
  {
    ReachSteps(Commands, fl);
  }

  /** A filter's column, the status column aside, names a table in scope of an actions search
      once the flags its branch raises are set. */
  lemma ActionsColumnInScope(f: Filter, fl: Flags)
    requires f in Order(Actions) && Below(Raise(Actions, f), fl) && f != StatusFilter
    ensures TableNamed(ColumnOf(Actions, f).qualifier).Some?
    ensures TableNamed(ColumnOf(Actions, f).qualifier).value in ReachUpTo(Actions, fl, |Emission(Actions)|)
  {
    ReachSteps(Actions, fl);
  }

  /** A filter's column names a table in scope of an agents search once the flags its branch
      raises are set. */
  lemma AgentsColumnInScope(f: Filter, fl: Flags)
    requires f in Order(Agents) && Below(Raise(Agents, f), fl)
    ensures TableNamed(ColumnOf(Agents, f).qualifier).Some?
    ensures TableNamed(ColumnOf(Agents, f).qualifier).value in ReachUpTo(Agents, fl, |Emission(Agents)|)
  {
    ReachSteps(Agents, fl);
    match f {
      case BeforeFilter => case AfterFilter => case StatusFilter =>
      case ActionIdFilter => case ActionNameFilter => case CommandIdFilter =>
      case AgentIdFilter => case AgentNameFilter => case InvestigatorIdFilter =>
      case InvestigatorNameFilter => case ThreatFamilyFilter => case FoundAnythingFilter =>
    }
  }

  /** A filter's column names a table in scope of an investigators search once the flags its
      branch raises are set. */
  lemma InvestigatorsColumnInScope(f: Filter, fl: Flags)
    requires f in Order(Investigators) && Below(Raise(Investigators, f), fl)
    ensures TableNamed(ColumnOf(Investigators, f).qualifier).Some?
    ensures TableNamed(ColumnOf(Investigators, f).qualifier).value in ReachUpTo(Investigators, fl, |Emission(Investigators)|)
  {
    ReachSteps(Investigators, fl);
  }

  /** A filter's column names a table the search has in scope once the flags its branch raises
      are set. The status filter of the actions search is the exception. */
  lemma RaisedTableInScope(e: Entity, f: Filter, fl: Flags)
    requires f in Order(e) && Below(Raise(e, f), fl)
    requires !(e == Actions && f == StatusFilter)
    ensures TableNamed(ColumnOf(e, f).qualifier).Some?
    ensures TableNamed(ColumnOf(e, f).qualifier).value in ReachUpTo(e, fl, |Emission(e)|)
  {
    match e
    case Commands => CommandsColumnInScope(f, fl);
    case Actions => ActionsColumnInScope(f, fl);
    case Agents => AgentsColumnInScope(f, fl);
    case Investigators => InvestigatorsColumnInScope(f, fl);
  }

  /**
   * What the inference is for: the joins a search emits are scoped, and every column its
   * active filters compare with belongs to a table those joins bring in, except the status
   * column of the actions search.
   */
  lemma ColumnsInScope(e: Entity, p: SearchParameters, now: int, doFoundAnything: bool)
    ensures var js := JoinsFor(e, FlagsOf(e, p, now, doFoundAnything));
      Scoped(Base(e), js) &&
      forall f :: f in Order(e) && Active(f, p, now, doFoundAnything) && !(e == Actions && f == StatusFilter) ==>
        TableNamed(ColumnOf(e, f).qualifier).Some? && TableNamed(ColumnOf(e, f).qualifier).value in Reach(Base(e), js)
  {
    var fl := FlagsOf(e, p, now, doFoundAnything);
    FlagsCoherent(e, p, now, doFoundAnything);
    JoinsScoped(e, fl);
    forall f | f in Order(e) && Active(f, p, now, doFoundAnything) && !(e == Actions && f == StatusFilter)
      ensures TableNamed(ColumnOf(e, f).qualifier).Some? && TableNamed(ColumnOf(e, f).qualifier).value in Reach(Base(e), JoinsFor(e, fl))
    {
      ActiveRaises(e, f, p, now, doFoundAnything);
      RaisedTableInScope(e, f, fl);
    }
  }

  /** The status column of the actions search is qualified by `action`, which names no table. */
  lemma ActionsStatusUnbound()
    ensures TableNamed(ColumnOf(Actions, StatusFilter).qualifier) == None
  {
  }

  // ---------------------------------------------------------------------
  // The flags of each search, spelled out

  /** In the actions search an agent filter raises the agent and command flags, a command
      filter the command flag, an investigator filter the investigator flag. */
  function ActionsExpected(p: SearchParameters): Flags {
    var agent := p.agentId != AnyId || p.agentName != AnyPattern;
    Flags(false, agent || p.commandId != AnyId, agent, p.investigatorId != AnyId || p.investigatorName != AnyPattern)
  }

  /** In the agents search an action filter (id, name, threat family) raises the action and
      command flags, an investigator filter all three, a command filter the command flag. */
  function AgentsExpected(p: SearchParameters): Flags {
    var action := p.actionId != AnyId || p.actionName != AnyPattern || p.threatFamily != AnyPattern;
    var investigator := p.investigatorId != AnyId || p.investigatorName != AnyPattern;
    Flags(action || investigator, action || investigator || p.commandId != AnyId, false, investigator)
  }

  /** In the investigators search an action filter raises the action flag, a command filter
      the command and action flags, an agent filter all three. */
  function InvestigatorsExpected(p: SearchParameters): Flags {
    var agent := p.agentId != AnyId || p.agentName != AnyPattern;
    var command := p.commandId != AnyId || agent;
    Flags(p.actionId != AnyId || p.actionName != AnyPattern || p.threatFamily != AnyPattern || command,
          command, agent, false)
  }

  /** The flags of the actions search are the ones its branches set. */
  lemma ActionsFlags(p: SearchParameters, now: int, doFoundAnything: bool)
    ensures FlagsOf(Actions, p, now, doFoundAnything) == ActionsExpected(p)
  {
    ActionsFlagsRaised(p, now, doFoundAnything);
    ActionsFlagsExplained(p, now, doFoundAnything);
  }

  lemma ActionsFlagsRaised(p: SearchParameters, now: int, doFoundAnything: bool)
    ensures Below(ActionsExpected(p), FlagsOf(Actions, p, now, doFoundAnything))
  {
    if p.agentId != AnyId { ActiveRaises(Actions, AgentIdFilter, p, now, doFoundAnything); }
    if p.agentName != AnyPattern { ActiveRaises(Actions, AgentNameFilter, p, now, doFoundAnything); }
    if p.commandId != AnyId { ActiveRaises(Actions, CommandIdFilter, p, now, doFoundAnything); }
    if p.investigatorId != AnyId { ActiveRaises(Actions, InvestigatorIdFilter, p, now, doFoundAnything); }
    if p.investigatorName != AnyPattern { ActiveRaises(Actions, InvestigatorNameFilter, p, now, doFoundAnything); }
  }

  lemma ActionsFlagsExplained(p: SearchParameters, now: int, doFoundAnything: bool)
    ensures Below(FlagsOf(Actions, p, now, doFoundAnything), ActionsExpected(p))
  {
    forall f
      ensures !Raise(Actions, f).action
      ensures Raise(Actions, f).command <==> f == AgentIdFilter || f == AgentNameFilter || f == CommandIdFilter
      ensures Raise(Actions, f).agent <==> f == AgentIdFilter || f == AgentNameFilter
      ensures Raise(Actions, f).investigator <==> f == InvestigatorIdFilter || f == InvestigatorNameFilter
    {
    }
  }

  /** The flags of the agents search are the ones its branches set. */
  lemma AgentsFlags(p: SearchParameters, now: int, doFoundAnything: bool)
    ensures FlagsOf(Agents, p, now, doFoundAnything) == AgentsExpected(p)
  {
    AgentsFlagsRaised(p, now, doFoundAnything);
    AgentsFlagsExplained(p, now, doFoundAnything);
  }

  lemma AgentsFlagsRaised(p: SearchParameters, now: int, doFoundAnything: bool)
    ensures Below(AgentsExpected(p), FlagsOf(Agents, p, now, doFoundAnything))
  {
    if p.actionId != AnyId { ActiveRaises(Agents, ActionIdFilter, p, now, doFoundAnything); }
    if p.actionName != AnyPattern { ActiveRaises(Agents, ActionNameFilter, p, now, doFoundAnything); }
    if p.threatFamily != AnyPattern { ActiveRaises(Agents, ThreatFamilyFilter, p, now, doFoundAnything); }
    if p.investigatorId != AnyId { ActiveRaises(Agents, InvestigatorIdFilter, p, now, doFoundAnything); }
    if p.investigatorName != AnyPattern { ActiveRaises(Agents, InvestigatorNameFilter, p, now, doFoundAnything); }
    if p.commandId != AnyId { ActiveRaises(Agents, CommandIdFilter, p, now, doFoundAnything); }
  }

  lemma AgentsFlagsExplained(p: SearchParameters, now: int, doFoundAnything: bool)
    ensures Below(FlagsOf(Agents, p, now, doFoundAnything), AgentsExpected(p))
  {
    forall f
      ensures Raise(Agents, f).action <==>
        f == ActionIdFilter || f == ActionNameFilter || f == ThreatFamilyFilter ||
        f == InvestigatorIdFilter || f == InvestigatorNameFilter
      ensures Raise(Agents, f).command <==>
        f == ActionIdFilter || f == ActionNameFilter || f == ThreatFamilyFilter ||
        f == InvestigatorIdFilter || f == InvestigatorNameFilter || f == CommandIdFilter
      ensures !Raise(Agents, f).agent
      ensures Raise(Agents, f).investigator <==> f == InvestigatorIdFilter || f == InvestigatorNameFilter
    {
    }
  }

  /** The flags of the investigators search are the ones its branches set. */
  lemma InvestigatorsFlags(p: SearchParameters, now: int, doFoundAnything: bool)
    ensures FlagsOf(Investigators, p, now, doFoundAnything) == InvestigatorsExpected(p)
  {
    InvestigatorsFlagsRaised(p, now, doFoundAnything);
    InvestigatorsFlagsExplained(p, now, doFoundAnything);
  }

  lemma InvestigatorsFlagsRaised(p: SearchParameters, now: int, doFoundAnything: bool)
    ensures Below(InvestigatorsExpected(p), FlagsOf(Investigators, p, now, doFoundAnything))
  {
    if p.actionId != AnyId { ActiveRaises(Investigators, ActionIdFilter, p, now, doFoundAnything); }
    if p.actionName != AnyPattern { ActiveRaises(Investigators, ActionNameFilter, p, now, doFoundAnything); }
    if p.threatFamily != AnyPattern { ActiveRaises(Investigators, ThreatFamilyFilter, p, now, doFoundAnything); }
    if p.commandId != AnyId { ActiveRaises(Investigators, CommandIdFilter, p, now, doFoundAnything); }
    if p.agentId != AnyId { ActiveRaises(Investigators, AgentIdFilter, p, now, doFoundAnything); }
    if p.agentName != AnyPattern { ActiveRaises(Investigators, AgentNameFilter, p, now, doFoundAnything); }
  }

  lemma InvestigatorsFlagsExplained(p: SearchParameters, now: int, doFoundAnything: bool)
    ensures Below(FlagsOf(Investigators, p, now, doFoundAnything), InvestigatorsExpected(p))
  {
    forall f
      ensures Raise(Investigators, f).action <==>
        f == ActionIdFilter || f == ActionNameFilter || f == ThreatFamilyFilter ||
        f == CommandIdFilter || f == AgentIdFilter || f == AgentNameFilter
      ensures Raise(Investigators, f).command <==> f == CommandIdFilter || f == AgentIdFilter || f == AgentNameFilter
      ensures Raise(Investigators, f).agent <==> f == AgentIdFilter || f == AgentNameFilter
      ensures !Raise(Investigators, f).investigator
    {
    }
  }

}
