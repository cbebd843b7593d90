/**
 * The filter model of a search: the parameters a caller fills in, their
 * defaults and sentinels, which filters a set of parameters activates, and
 * the canonical query string that describes a search.
 *
 * Times are integers counting nanoseconds, the unit of a Go duration; the
 * wall clock is the parameter `now`.
 */
module Params {
  /** One hour in nanoseconds. */
  const Hour: int := 3_600_000_000_000

  /** Half-width of the default search window: 39600 hours, as written in the source. */
  const DefaultSearchPeriod: int := 39600 * Hour

  /** Sentinel of an identifier filter: "do not filter on this identifier". */
  const AnyId: string := "∞"

  /** Sentinel of a pattern filter: "do not filter on this pattern". */
  const AnyPattern: string := "%"

  /** The sparse filter a caller fills in. Limit and Offset are whole numbers. */
  datatype SearchParameters = SearchParameters(
    actionId: string,
    actionName: string,
    after: int,
    agentId: string,
    agentName: string,
    before: int,
    commandId: string,
    foundAnything: bool,
    investigatorId: string,
    investigatorName: string,
    limit: nat,
    offset: nat,
    report: string,
    status: string,
    target: string,
    threatFamily: string,
    searchType: string)

  /** The defaults: every filter at its sentinel and the window [now - period, now + period]. */
  function NewSearchParameters(now: int): SearchParameters {
    SearchParameters(
      actionId := AnyId,
      actionName := AnyPattern,
      after := now - DefaultSearchPeriod,
      agentId := AnyId,
      agentName := AnyPattern,
      before := now + DefaultSearchPeriod,
      commandId := AnyId,
      foundAnything := false,
      investigatorId := AnyId,
      investigatorName := AnyPattern,
      limit := 100,
      offset := 0,
      report := "",
      status := AnyPattern,
      target := "",
      threatFamily := AnyPattern,
      searchType := "action")
  }

  // ---------------------------------------------------------------------
  // Filters

  /** Every filter a search can turn into a WHERE predicate. */
  datatype Filter =
    | BeforeFilter
    | AfterFilter
    | StatusFilter
    | ActionIdFilter
    | ActionNameFilter
    | CommandIdFilter
    | AgentIdFilter
    | AgentNameFilter
    | InvestigatorIdFilter
    | InvestigatorNameFilter
    | ThreatFamilyFilter
    | FoundAnythingFilter

  /**
   * Whether a filter is set. The time bounds count only when they lie more
   * than one hour inside the default window; `doFoundAnything` is the extra
   * argument of the commands search.
   */
  predicate Active(f: Filter, p: SearchParameters, now: int, doFoundAnything: bool) {
    match f
    case BeforeFilter => p.before < now + (DefaultSearchPeriod - Hour)
    case AfterFilter => p.after > now - (DefaultSearchPeriod - Hour)
    case StatusFilter => p.status != AnyPattern
    case ActionIdFilter => p.actionId != AnyId
    case ActionNameFilter => p.actionName != AnyPattern
    case CommandIdFilter => p.commandId != AnyId
    case AgentIdFilter => p.agentId != AnyId
    case AgentNameFilter => p.agentName != AnyPattern
    case InvestigatorIdFilter => p.investigatorId != AnyId
    case InvestigatorNameFilter => p.investigatorName != AnyPattern
    case ThreatFamilyFilter => p.threatFamily != AnyPattern
    case FoundAnythingFilter => doFoundAnything
  }

  /** Default parameters activate no filter at all, not even a time bound. */
  lemma DefaultsActivateNothing(now: int)
    ensures forall f :: !Active(f, NewSearchParameters(now), now, false)
  {
  }

  /**
   * The one-hour tolerance: a bound that moved by less than an hour from the
   * default edge of the window is not a predicate; one further inside is.
   */
  lemma TimeWindowTolerance(p: SearchParameters, now: int)
    ensures now + DefaultSearchPeriod - Hour <= p.before ==> !Active(BeforeFilter, p, now, false)
    ensures p.before <= now + DefaultSearchPeriod - Hour - 1 ==> Active(BeforeFilter, p, now, false)
    ensures p.after <= now - DefaultSearchPeriod + Hour ==> !Active(AfterFilter, p, now, false)
    ensures now - DefaultSearchPeriod + Hour + 1 <= p.after ==> Active(AfterFilter, p, now, false)
  {
  }

  /**
   * The defaults are built from one reading of the clock and tested against a
   * later one: within the hour after construction neither time bound is a
   * predicate, and once more than an hour has passed the Before bound is.
   */
  lemma DefaultsAcrossClocks(t0: int, now: int)
    requires t0 <= now
    ensures now <= t0 + Hour ==>
      !Active(BeforeFilter, NewSearchParameters(t0), now, false) &&
      !Active(AfterFilter, NewSearchParameters(t0), now, false)
    ensures now > t0 + Hour ==> Active(BeforeFilter, NewSearchParameters(t0), now, false)
    ensures !Active(AfterFilter, NewSearchParameters(t0), now, false)
  {
  }

  // ---------------------------------------------------------------------
  // The canonical query string

  /** The keys of the query string, in the order the string lists them. */
  datatype Key =
    | TypeKey | AfterKey | BeforeKey
    | AgentNameKey | AgentIdKey | ActionNameKey | ActionIdKey | CommandIdKey
    | InvestigatorIdKey | InvestigatorNameKey | ThreatFamilyKey | StatusKey
    | LimitKey | OffsetKey

  const KeyCount: nat := 14

  /** The key at a position of the fixed order. */
  function KeyAt(i: nat): Key
    requires i < KeyCount
  {
    [TypeKey, AfterKey, BeforeKey,
     AgentNameKey, AgentIdKey, ActionNameKey, ActionIdKey, CommandIdKey,
     InvestigatorIdKey, InvestigatorNameKey, ThreatFamilyKey, StatusKey,
     LimitKey, OffsetKey][i]
  }

  /** The position of a key in the fixed order. */
  function Position(k: Key): (i: nat)
    ensures i < KeyCount && KeyAt(i) == k
  {
    match k
    case TypeKey => 0
    case AfterKey => 1
    case BeforeKey => 2
    case AgentNameKey => 3
    case AgentIdKey => 4
    case ActionNameKey => 5
    case ActionIdKey => 6
    case CommandIdKey => 7
    case InvestigatorIdKey => 8
    case InvestigatorNameKey => 9
    case ThreatFamilyKey => 10
    case StatusKey => 11
    case LimitKey => 12
    case OffsetKey => 13
  }

  function Name(k: Key): string {
    match k
    case TypeKey => "type"
    case AfterKey => "after"
    case BeforeKey => "before"
    case AgentNameKey => "agentname"
    case AgentIdKey => "agentid"
    case ActionNameKey => "actionname"
    case ActionIdKey => "actionid"
    case CommandIdKey => "commandid"
    case InvestigatorIdKey => "investigatorid"
    case InvestigatorNameKey => "investigatorname"
    case ThreatFamilyKey => "threatfamily"
    case StatusKey => "status"
    case LimitKey => "limit"
    case OffsetKey => "offset"
  }

  /** Whether the query string carries a key: always for type, after, before and limit;
      otherwise iff the field left its sentinel (offset: iff it is not zero). */
  predicate Emits(k: Key, p: SearchParameters) {
    match k
    case TypeKey => true
    case AfterKey => true
    case BeforeKey => true
    case AgentNameKey => p.agentName != AnyPattern
    case AgentIdKey => p.agentId != AnyId
    case ActionNameKey => p.actionName != AnyPattern
    case ActionIdKey => p.actionId != AnyId
    case CommandIdKey => p.commandId != AnyId
    case InvestigatorIdKey => p.investigatorId != AnyId
    case InvestigatorNameKey => p.investigatorName != AnyPattern
    case ThreatFamilyKey => p.threatFamily != AnyPattern
    case StatusKey => p.status != AnyPattern
    case LimitKey => true
    case OffsetKey => p.offset != 0
  }

  /** The value written for a key; timestamps and numbers go through the given formatters. */
  function ValueOf(k: Key, p: SearchParameters, showTime: int -> string, showNum: nat -> string): string {
    match k
    case TypeKey => p.searchType
    case AfterKey => showTime(p.after)
    case BeforeKey => showTime(p.before)
    case AgentNameKey => p.agentName
    case AgentIdKey => p.agentId
    case ActionNameKey => p.actionName
    case ActionIdKey => p.actionId
    case CommandIdKey => p.commandId
    case InvestigatorIdKey => p.investigatorId
    case InvestigatorNameKey => p.investigatorName
    case ThreatFamilyKey => p.threatFamily
    case StatusKey => p.status
    case LimitKey => showNum(p.limit)
    case OffsetKey => showNum(p.offset)
  }

  datatype Pair = Pair(key: Key, value: string)

  /** The pair a key contributes. */
  function PairFor(k: Key, p: SearchParameters, showTime: int -> string, showNum: nat -> string): Pair {
    Pair(k, ValueOf(k, p, showTime, showNum))
  }

  /** The pair of a key when it is written, nothing otherwise. */
  function Opt(k: Key, p: SearchParameters, showTime: int -> string, showNum: nat -> string): seq<Pair> {
    if Emits(k, p) then [PairFor(k, p, showTime, showNum)] else []
  }

  /** The pairs written for the first `n` keys of the fixed order. */
  function PairsUpTo(p: SearchParameters, showTime: int -> string, showNum: nat -> string, n: nat): seq<Pair>
    requires n <= KeyCount
  {
    if n == 0 then []
    else
      PairsUpTo(p, showTime, showNum, n - 1) + Opt(KeyAt(n - 1), p, showTime, showNum)
  }

  /** The pairs of the whole query string. */
  function QueryPairs(p: SearchParameters, showTime: int -> string, showNum: nat -> string): seq<Pair> {
    PairsUpTo(p, showTime, showNum, KeyCount)
  }

  /** `key=value` pairs joined by `&`. */
  function Encode(pairs: seq<Pair>): string {
    if pairs == [] then ""
    else
      var last := pairs[|pairs| - 1];
      Encode(pairs[..|pairs| - 1]) + (if |pairs| == 1 then "" else "&") + Name(last.key) + "=" + last.value
  }

  /** The first three pairs are always type, after and before. */
  lemma FixedPrefix(p: SearchParameters, showTime: int -> string, showNum: nat -> string)
    ensures PairsUpTo(p, showTime, showNum, 3)
         == [Pair(TypeKey, p.searchType), Pair(AfterKey, showTime(p.after)), Pair(BeforeKey, showTime(p.before))]
    ensures Encode(PairsUpTo(p, showTime, showNum, 3))
         == "type=" + p.searchType + "&after=" + showTime(p.after) + "&before=" + showTime(p.before)
  {
    FirstPairs(p, showTime, showNum);
    EncodeThree(p.searchType, showTime(p.after), showTime(p.before));
  }

  lemma EncodeThree(t: string, a: string, b: string)
    ensures Encode([Pair(TypeKey, t), Pair(AfterKey, a), Pair(BeforeKey, b)])
         == "type=" + t + "&after=" + a + "&before=" + b
  {
    var x, y, z := Pair(TypeKey, t), Pair(AfterKey, a), Pair(BeforeKey, b);
    assert [x][..0] == [];
    assert Encode([x]) == "" + "" + "type" + "=" + t;
    assert "" + "" + "type" + "=" == "type=";
    assert [x] + [y] == [x, y] && [x, y] + [z] == [x, y, z];
    EncodeSnoc([x], y);
    Regroup4(Encode([x]), "&", "after", "=");
    assert "&" + "after" + "=" == "&after=";
    EncodeSnoc([x, y], z);
    Regroup4(Encode([x, y]), "&", "before", "=");
    assert "&" + "before" + "=" == "&before=";
  }

  /** Concatenation regroups. */
  lemma Regroup4(a: string, b: string, c: string, d: string)
    ensures a + b + c + d == a + (b + c + d)
  {
  }

  lemma FirstPairs(p: SearchParameters, showTime: int -> string, showNum: nat -> string)
    ensures PairsUpTo(p, showTime, showNum, 3)
         == [Pair(TypeKey, p.searchType), Pair(AfterKey, showTime(p.after)), Pair(BeforeKey, showTime(p.before))]
  {
    assert KeyAt(0) == TypeKey && KeyAt(1) == AfterKey && KeyAt(2) == BeforeKey;
    assert PairsUpTo(p, showTime, showNum, 0) == [];
    assert PairsUpTo(p, showTime, showNum, 1) == [Pair(TypeKey, p.searchType)];
    assert PairsUpTo(p, showTime, showNum, 2) == [Pair(TypeKey, p.searchType), Pair(AfterKey, showTime(p.after))];
  }

  lemma {:induction false} PairsLength(p: SearchParameters, showTime: int -> string, showNum: nat -> string, n: nat)
    requires 3 <= n <= KeyCount
    ensures |PairsUpTo(p, showTime, showNum, n)| >= 3
  {
    if n == 3 {
      FixedPrefix(p, showTime, showNum);
    } else {
      PairsLength(p, showTime, showNum, n - 1);
    }
  }

  /** The text a key adds after the first three pairs: `&key=value` when it is written. */
  function Piece(k: Key, p: SearchParameters, showTime: int -> string, showNum: nat -> string): string {
    if Emits(k, p) then "&" + Name(k) + "=" + ValueOf(k, p, showTime, showNum) else ""
  }

  /** Concatenation regroups. */
  lemma Regroup(a: string, b: string, c: string, d: string, e: string)
    ensures a + b + c + d + e == a + (b + c + d + e)
  {
  }

  /** Appending a pair to a non-empty list appends `&key=value` to its encoding. */
  lemma EncodeSnoc(pairs: seq<Pair>, x: Pair)
    requires pairs != []
    ensures Encode(pairs + [x]) == Encode(pairs) + "&" + Name(x.key) + "=" + x.value
  {
    assert (pairs + [x])[..|pairs|] == pairs;
  }

  /** Appending the pairs of one key to a non-empty list appends its piece to the encoding. */
  lemma EncodeOpt(pairs: seq<Pair>, k: Key, p: SearchParameters, showTime: int -> string, showNum: nat -> string)
    requires pairs != []
    ensures Encode(pairs + Opt(k, p, showTime, showNum)) == Encode(pairs) + Piece(k, p, showTime, showNum)
  {
    if Emits(k, p) {
      var x := PairFor(k, p, showTime, showNum);
      assert pairs + Opt(k, p, showTime, showNum) == pairs + [x];
      EncodeSnoc(pairs, x);
      Regroup(Encode(pairs), "&", Name(k), "=", x.value);
    } else {
      assert pairs + Opt(k, p, showTime, showNum) == pairs;
    }
  }

  /** Past the first three keys, each key adds its piece to the encoding. */
  lemma EncodeStep(p: SearchParameters, showTime: int -> string, showNum: nat -> string, n: nat)
    requires 3 <= n < KeyCount
    ensures Encode(PairsUpTo(p, showTime, showNum, n + 1))
         == Encode(PairsUpTo(p, showTime, showNum, n)) + Piece(KeyAt(n), p, showTime, showNum)
  {
    PairsLength(p, showTime, showNum, n);
    EncodeOpt(PairsUpTo(p, showTime, showNum, n), KeyAt(n), p, showTime, showNum);
  }

  /** One step of the query string: `&key=value` is appended when the key's field is set. */
  method AppendKey(query: string, p: SearchParameters, showTime: int -> string, showNum: nat -> string, k: Key)
    returns (query': string)
    ensures query' == query + Piece(k, p, showTime, showNum)
  {
    if Emits(k, p) {
      query' := query + "&" + Name(k) + "=" + ValueOf(k, p, showTime, showNum);
      Regroup(query, "&", Name(k), "=", ValueOf(k, p, showTime, showNum));
    } else {
      query' := query;
    }
  }

  /** The canonical query string of a search, grown one field at a time. */
  method QueryString(p: SearchParameters, showTime: int -> string, showNum: nat -> string) returns (query: string)
    ensures query == Encode(QueryPairs(p, showTime, showNum))
  {
    query := "type=" + p.searchType + "&after=" + showTime(p.after) + "&before=" + showTime(p.before);
    query := AppendKey(query, p, showTime, showNum, AgentNameKey);
    query := AppendKey(query, p, showTime, showNum, AgentIdKey);
    query := AppendKey(query, p, showTime, showNum, ActionNameKey);
    query := AppendKey(query, p, showTime, showNum, ActionIdKey);
    query := AppendKey(query, p, showTime, showNum, CommandIdKey);
    query := AppendKey(query, p, showTime, showNum, InvestigatorIdKey);
    query := AppendKey(query, p, showTime, showNum, InvestigatorNameKey);
    query := AppendKey(query, p, showTime, showNum, ThreatFamilyKey);
    query := AppendKey(query, p, showTime, showNum, StatusKey);
    query := AppendKey(query, p, showTime, showNum, LimitKey);
    query := AppendKey(query, p, showTime, showNum, OffsetKey);
    QueryText(p, showTime, showNum);
  }

  /** The encoded query string, key by key in the fixed order. */
  lemma QueryText(p: SearchParameters, showTime: int -> string, showNum: nat -> string)
    ensures Encode(QueryPairs(p, showTime, showNum))
         == "type=" + p.searchType + "&after=" + showTime(p.after) + "&before=" + showTime(p.before)
          + Piece(AgentNameKey, p, showTime, showNum) + Piece(AgentIdKey, p, showTime, showNum)
          + Piece(ActionNameKey, p, showTime, showNum) + Piece(ActionIdKey, p, showTime, showNum)
          + Piece(CommandIdKey, p, showTime, showNum) + Piece(InvestigatorIdKey, p, showTime, showNum)
          + Piece(InvestigatorNameKey, p, showTime, showNum) + Piece(ThreatFamilyKey, p, showTime, showNum)
          + Piece(StatusKey, p, showTime, showNum) + Piece(LimitKey, p, showTime, showNum)
          + Piece(OffsetKey, p, showTime, showNum)
  {
    FixedPrefix(p, showTime, showNum);
    EncodeStep(p, showTime, showNum, 3);
    EncodeStep(p, showTime, showNum, 4);
    EncodeStep(p, showTime, showNum, 5);
    EncodeStep(p, showTime, showNum, 6);
    EncodeStep(p, showTime, showNum, 7);
    EncodeStep(p, showTime, showNum, 8);
    EncodeStep(p, showTime, showNum, 9);
    EncodeStep(p, showTime, showNum, 10);
    EncodeStep(p, showTime, showNum, 11);
    EncodeStep(p, showTime, showNum, 12);
    EncodeStep(p, showTime, showNum, 13);
  }

  /** A position and its key determine each other. */
  lemma PositionOfKeyAt(i: nat)
    requires i < KeyCount
    ensures Position(KeyAt(i)) == i
  {
  }

  /** Every pair belongs to a written key before position `n` and carries that key's value. */
  predicate WrittenBefore(s: seq<Pair>, p: SearchParameters, showTime: int -> string, showNum: nat -> string, n: nat) {
    forall j :: 0 <= j < |s| ==>
      Position(s[j].key) < n && Emits(s[j].key, p) && s[j] == PairFor(s[j].key, p, showTime, showNum)
  }

  /** The keys of the pairs appear in strictly increasing position. */
  predicate InKeyOrder(s: seq<Pair>) {
    forall i, j :: 0 <= i < j < |s| ==> Position(s[i].key) < Position(s[j].key)
  }

  /** Appending the pairs of the key at position `n` keeps every pair one of a written key
      before the next position, with its own value. */
  lemma WrittenStep(prev: seq<Pair>, k: Key, p: SearchParameters, showTime: int -> string, showNum: nat -> string, n: nat)
    requires Position(k) == n && WrittenBefore(prev, p, showTime, showNum, n)
    ensures WrittenBefore(prev + Opt(k, p, showTime, showNum), p, showTime, showNum, n + 1)
  {
    var s := prev + Opt(k, p, showTime, showNum);
    forall j | 0 <= j < |s|
      ensures Position(s[j].key) < n + 1 && Emits(s[j].key, p) && s[j] == PairFor(s[j].key, p, showTime, showNum)
    {
      if j < |prev| {
        assert s[j] == prev[j];
      } else {
        assert Emits(k, p) && s[j] == PairFor(k, p, showTime, showNum);
      }
    }
  }

  /** Appending the pairs of a key positioned after every key so far keeps the key order. */
  lemma OrderStep(prev: seq<Pair>, k: Key, p: SearchParameters, showTime: int -> string, showNum: nat -> string, n: nat)
    requires Position(k) == n && WrittenBefore(prev, p, showTime, showNum, n) && InKeyOrder(prev)
    ensures InKeyOrder(prev + Opt(k, p, showTime, showNum))
  {
    var s := prev + Opt(k, p, showTime, showNum);
    forall i, j | 0 <= i < j < |s| ensures Position(s[i].key) < Position(s[j].key) {
      assert s[i] == prev[i];
      if j < |prev| {
        assert s[j] == prev[j];
      } else {
        assert s[j] == PairFor(k, p, showTime, showNum);
      }
    }
  }

  /** Appending the pairs of the key at position `n` adds that key when it is written. */
  lemma CoverStep(prev: seq<Pair>, p: SearchParameters, showTime: int -> string, showNum: nat -> string, n: nat)
    requires n < KeyCount
    requires forall i :: 0 <= i < n && Emits(KeyAt(i), p) ==> PairFor(KeyAt(i), p, showTime, showNum) in prev
    ensures forall i :: 0 <= i < n + 1 && Emits(KeyAt(i), p) ==>
      PairFor(KeyAt(i), p, showTime, showNum) in prev + Opt(KeyAt(n), p, showTime, showNum)
  {
  }

  /**
   * What the first `n` keys contribute: only keys before position `n` that are
   * written, each with its own value, in strictly increasing position; and every
   * written key before `n` is there.
   */
  lemma {:induction false} PairsUpToFacts(p: SearchParameters, showTime: int -> string, showNum: nat -> string, n: nat)
    requires n <= KeyCount
    ensures WrittenBefore(PairsUpTo(p, showTime, showNum, n), p, showTime, showNum, n)
    ensures InKeyOrder(PairsUpTo(p, showTime, showNum, n))
    ensures forall i :: 0 <= i < n && Emits(KeyAt(i), p) ==>
      PairFor(KeyAt(i), p, showTime, showNum) in PairsUpTo(p, showTime, showNum, n)
  {
    if n > 0 {
      PairsUpToFacts(p, showTime, showNum, n - 1);
      var prev := PairsUpTo(p, showTime, showNum, n - 1);
      PositionOfKeyAt(n - 1);
      WrittenStep(prev, KeyAt(n - 1), p, showTime, showNum, n - 1);
      OrderStep(prev, KeyAt(n - 1), p, showTime, showNum, n - 1);
      CoverStep(prev, p, showTime, showNum, n - 1);
    }
  }

  /**
   * The query string lists exactly the written keys, each once, in the fixed
   * order, each with its own value.
   */
  lemma QueryPairsExact(p: SearchParameters, showTime: int -> string, showNum: nat -> string)
    ensures forall k :: PairFor(k, p, showTime, showNum) in QueryPairs(p, showTime, showNum) <==> Emits(k, p)
    ensures forall x :: x in QueryPairs(p, showTime, showNum) ==> x == PairFor(x.key, p, showTime, showNum)
    ensures InKeyOrder(QueryPairs(p, showTime, showNum))
  {
    PairsUpToFacts(p, showTime, showNum, KeyCount);
    var s := QueryPairs(p, showTime, showNum);
    assert s == PairsUpTo(p, showTime, showNum, KeyCount);
    assert WrittenBefore(s, p, showTime, showNum, KeyCount);
    forall x | x in s ensures x == PairFor(x.key, p, showTime, showNum) && Emits(x.key, p) {
      var j :| 0 <= j < |s| && s[j] == x;
    }
    forall k ensures PairFor(k, p, showTime, showNum) in s <==> Emits(k, p) {
      if Emits(k, p) {
        assert KeyAt(Position(k)) == k;
      }
      if PairFor(k, p, showTime, showNum) in s {
        assert PairFor(k, p, showTime, showNum).key == k;
      }
    }
  }

  /** The query string always starts with type, after and before and always carries the limit. */
  lemma QueryStringShape(p: SearchParameters, showTime: int -> string, showNum: nat -> string)
    ensures var s := QueryPairs(p, showTime, showNum);
      && |s| >= 4
      && s[..3] == [Pair(TypeKey, p.searchType), Pair(AfterKey, showTime(p.after)), Pair(BeforeKey, showTime(p.before))]
      && PairFor(LimitKey, p, showTime, showNum) in s
  {
    FixedPrefix(p, showTime, showNum);
    PrefixKept(p, showTime, showNum, KeyCount);
    var s := QueryPairs(p, showTime, showNum);
    var limit := PairFor(LimitKey, p, showTime, showNum);
    PairsUpToFacts(p, showTime, showNum, KeyCount);
    assert KeyAt(12) == LimitKey;
    assert limit in s;
    assert limit !in s[..3];
  }

  /** Later keys only append to the pairs of the first three. */
  lemma {:induction false} PrefixKept(p: SearchParameters, showTime: int -> string, showNum: nat -> string, n: nat)
    requires 3 <= n <= KeyCount
    ensures var s := PairsUpTo(p, showTime, showNum, n);
      |s| >= 3 && s[..3] == PairsUpTo(p, showTime, showNum, 3)
  {
    FixedPrefix(p, showTime, showNum);
    if n > 3 {
      PrefixKept(p, showTime, showNum, n - 1);
      var prev := PairsUpTo(p, showTime, showNum, n - 1);
      assert PairsUpTo(p, showTime, showNum, n) == prev + Opt(KeyAt(n - 1), p, showTime, showNum);
      assert (prev + Opt(KeyAt(n - 1), p, showTime, showNum))[..3] == prev[..3];
    }
  }

  /** With the defaults the query string is exactly type, the window and `limit=100`. */
  lemma DefaultQueryString(now: int, showTime: int -> string, showNum: nat -> string)
    ensures Encode(QueryPairs(NewSearchParameters(now), showTime, showNum))
         == "type=" + "action" + "&after=" + showTime(now - DefaultSearchPeriod)
          + "&before=" + showTime(now + DefaultSearchPeriod) + "&limit=" + showNum(100)
  {
    var p := NewSearchParameters(now);
    QueryText(p, showTime, showNum);
    DefaultPieces(now, showTime, showNum);
    var head := "type=" + p.searchType + "&after=" + showTime(p.after) + "&before=" + showTime(p.before);
    OnlyOnePiece(head, "&limit=" + showNum(100));
    Regroup3(head, "&limit=", showNum(100));
  }

  /** Nine empty pieces, one piece and one more empty piece add just that piece. */
  lemma OnlyOnePiece(head: string, piece: string)
    ensures head + "" + "" + "" + "" + "" + "" + "" + "" + "" + piece + "" == head + piece
  {
  }

  /** Concatenation regroups. */
  lemma Regroup3(a: string, b: string, c: string)
    ensures a + (b + c) == a + b + c
  {
  }

  /** With the defaults every optional key adds nothing and the limit adds `&limit=100`. */
  lemma DefaultPieces(now: int, showTime: int -> string, showNum: nat -> string)
    ensures var p := NewSearchParameters(now);
      && Piece(AgentNameKey, p, showTime, showNum) == "" && Piece(AgentIdKey, p, showTime, showNum) == ""
      && Piece(ActionNameKey, p, showTime, showNum) == "" && Piece(ActionIdKey, p, showTime, showNum) == ""
      && Piece(CommandIdKey, p, showTime, showNum) == "" && Piece(InvestigatorIdKey, p, showTime, showNum) == ""
      && Piece(InvestigatorNameKey, p, showTime, showNum) == "" && Piece(ThreatFamilyKey, p, showTime, showNum) == ""
      && Piece(StatusKey, p, showTime, showNum) == "" && Piece(OffsetKey, p, showTime, showNum) == ""
      && Piece(LimitKey, p, showTime, showNum) == "&limit=" + showNum(100)
  {
  }
}
