/**
 * The identifier ranges of a search. Each identifier filter becomes an
 * inclusive range: the whole range of exactly representable integers when
 * the field holds its sentinel, the single parsed value otherwise. A value
 * that does not parse aborts the search.
 *
 * Parsing is a parameter: the model only knows that it either fails or
 * yields a whole number no larger than `MaxFloat64`.
 */
module Ranges {
  import opened Wrappers
  import opened Params

  /** 2^53 - 1, the largest integer a 64-bit float holds exactly. */
  const MaxFloat64: nat := 9007199254740991

  type Id = n: nat | n <= MaxFloat64

  /** An inclusive range of identifiers. */
  datatype IdRange = IdRange(lo: Id, hi: Id)

  /** The range that does not restrict anything. */
  const Full: IdRange := IdRange(0, MaxFloat64)

  /** The four ranges a search filters on. */
  datatype IDs = IDs(action: IdRange, command: IdRange, agent: IdRange, investigator: IdRange)

  /** A field that did not parse, with its text. */
  datatype ParseError = ParseError(input: string)

  /** The range of one identifier field. */
  function ResolveId(field: string, parse: string -> Option<Id>): Result<IdRange, ParseError> {
    if field == AnyId then Success(Full)
    else match parse(field)
      case None => Failure(ParseError(field))
      case Some(v) => Success(IdRange(v, v))
  }

  /** The four ranges of a search, or the first field that did not parse, in the
      order action, command, agent, investigator. */
  function ResolveIds(p: SearchParameters, parse: string -> Option<Id>): Result<IDs, ParseError> {
    match ResolveId(p.actionId, parse)
    case Failure(e) => Failure(e)
    case Success(action) =>
      match ResolveId(p.commandId, parse)
      case Failure(e) => Failure(e)
      case Success(command) =>
        match ResolveId(p.agentId, parse)
        case Failure(e) => Failure(e)
        case Success(agent) =>
          match ResolveId(p.investigatorId, parse)
          case Failure(e) => Failure(e)
          case Success(investigator) => Success(IDs(action, command, agent, investigator))
  }

  /** The resolver as the source writes it: one field after the other, returning at the first
      parse failure. */
  method MakeIDsFromParams(p: SearchParameters, parse: string -> Option<Id>) returns (r: Result<IDs, ParseError>)
    ensures r == ResolveIds(p, parse)
  {
    var action := Full;
    if p.actionId != AnyId {
      var v := parse(p.actionId);
      if v.None? {
        return Failure(ParseError(p.actionId));
      }
      action := IdRange(v.value, v.value);
    }
    var command := Full;
    if p.commandId != AnyId {
      var v := parse(p.commandId);
      if v.None? {
        return Failure(ParseError(p.commandId));
      }
      command := IdRange(v.value, v.value);
    }
    var agent := Full;
    if p.agentId != AnyId {
      var v := parse(p.agentId);
      if v.None? {
        return Failure(ParseError(p.agentId));
      }
      agent := IdRange(v.value, v.value);
    }
    var investigator := Full;
    if p.investigatorId != AnyId {
      var v := parse(p.investigatorId);
      if v.None? {
        return Failure(ParseError(p.investigatorId));
      }
      investigator := IdRange(v.value, v.value);
    }
    return Success(IDs(action, command, agent, investigator));
  }

  /** A field resolves when it is the sentinel or parses. */
  predicate Resolves(field: string, parse: string -> Option<Id>) {
    field == AnyId || parse(field).Some?
  }

  /** The range of a field that resolves: everything for the sentinel, the value itself otherwise. */
  predicate RangeOf(field: string, parse: string -> Option<Id>, r: IdRange) {
    if field == AnyId then r.lo == 0 && r.hi == MaxFloat64
    else parse(field).Some? && r.lo == parse(field).value && r.hi == parse(field).value
  }

  /** Resolving succeeds exactly when every field resolves, and then each range is the one
      its field denotes. */
  lemma ResolveIdsSuccess(p: SearchParameters, parse: string -> Option<Id>)
    ensures ResolveIds(p, parse).Success? <==>
      Resolves(p.actionId, parse) && Resolves(p.commandId, parse) &&
      Resolves(p.agentId, parse) && Resolves(p.investigatorId, parse)
    ensures ResolveIds(p, parse).Success? ==>
      var ids := ResolveIds(p, parse).value;
      RangeOf(p.actionId, parse, ids.action) && RangeOf(p.commandId, parse, ids.command) &&
      RangeOf(p.agentId, parse, ids.agent) && RangeOf(p.investigatorId, parse, ids.investigator)
  {
  }

  /** A failure names the first field, in the order action, command, agent, investigator,
      that does not resolve. */
  lemma ResolveIdsFailure(p: SearchParameters, parse: string -> Option<Id>)
    ensures !Resolves(p.actionId, parse) ==> ResolveIds(p, parse) == Failure(ParseError(p.actionId))
    ensures Resolves(p.actionId, parse) && !Resolves(p.commandId, parse) ==>
      ResolveIds(p, parse) == Failure(ParseError(p.commandId))
    ensures Resolves(p.actionId, parse) && Resolves(p.commandId, parse) && !Resolves(p.agentId, parse) ==>
      ResolveIds(p, parse) == Failure(ParseError(p.agentId))
    ensures (Resolves(p.actionId, parse) && Resolves(p.commandId, parse) && Resolves(p.agentId, parse) &&
             !Resolves(p.investigatorId, parse)) ==>
      ResolveIds(p, parse) == Failure(ParseError(p.investigatorId))
  {
  }

  /** Every resolved range is well formed: its lower end is not above its upper end. */
  lemma ResolvedRangesOrdered(p: SearchParameters, parse: string -> Option<Id>)
    requires ResolveIds(p, parse).Success?
    ensures var ids := ResolveIds(p, parse).value;
      ids.action.lo <= ids.action.hi && ids.command.lo <= ids.command.hi &&
      ids.agent.lo <= ids.agent.hi && ids.investigator.lo <= ids.investigator.hi
  {
  }

  /** The default parameters resolve, under any parser, to the four full ranges. */
  lemma DefaultsResolveToFull(now: int, parse: string -> Option<Id>)
    ensures ResolveIds(NewSearchParameters(now), parse) == Success(IDs(Full, Full, Full, Full))
  {
  }

  // ---------------------------------------------------------------------
  // A concrete parser for examples: plain decimal digits

  /** The value of a string of decimal digits. */
  function DigitsValue(s: string): nat
    requires forall i :: 0 <= i < |s| ==> '0' <= s[i] <= '9'
  {
    if s == [] then 0 else DigitsValue(s[..|s| - 1]) * 10 + (s[|s| - 1] - '0') as nat
  }

  /** Digits only, at least one, and a value no larger than `MaxFloat64`. */
  function ParseDecimal(s: string): (r: Option<Id>)
    ensures r.Some? ==> s != [] && forall i :: 0 <= i < |s| ==> '0' <= s[i] <= '9'
  {
    if s != [] && (forall i :: 0 <= i < |s| ==> '0' <= s[i] <= '9') && DigitsValue(s) <= MaxFloat64
    then Some(DigitsValue(s))
    else None
  }

  /** "42" parses to 42 and pins the action range to [42, 42]; "abc" aborts with its own text. */
  lemma ParseExamples()
    ensures ParseDecimal("42") == Some(42)
    ensures ParseDecimal("abc") == None
    ensures ResolveIds(NewSearchParameters(0).(actionId := "42"), ParseDecimal).value.action == IdRange(42, 42)
    ensures ResolveIds(NewSearchParameters(0).(commandId := "abc"), ParseDecimal) == Failure(ParseError("abc"))
  {
    assert "42"[..1] == "4";
    assert DigitsValue("4") == 4;
    assert !('0' <= "abc"[0] <= '9');
  }
}
