/**
 * The WHERE part of a search statement. A statement is a sequence of tokens:
 * literal text, the separator " AND " that joins two predicates, and numbered
 * placeholders `$n` that the database binds to the n-th value. Every predicate
 * is a clause with a column, a shape (how many placeholders it has and where)
 * and the values it binds.
 *
 * A line break and the indentation after it, inside the literal SQL text, are
 * written here as one space; blanks within one line are kept.
 */
module Sql {
  import opened Ranges

  datatype Token = Lit(text: string) | And | Param(slot: nat)

  /** A value bound to a placeholder. */
  datatype Value =
    | TimeArg(time: int)
    | IdArg(id: Id)
    | TextArg(text: string)
    | BoolArg(flag: bool)
    | CountArg(count: nat)

  /** A column, written `qualifier.name`. */
  datatype Column = Column(qualifier: string, name: string)

  function ColumnText(c: Column): string {
    c.qualifier + "." + c.name
  }

  /** The predicate forms a search uses. */
  datatype Shape =
    | AtMost         // column <= $n
    | AtLeast        // column >= $n
    | Between        // column >= $n AND column <= $n+1
    | Like           // column ILIKE $n
    | LikeSpaced     // column ILIKE $n, followed by a space
    | FoundAnything  // status = $n AND the id is among those with a result (4 placeholders)

  /** How many placeholders a shape takes. */
  function Width(s: Shape): nat {
    match s
    case Between => 2
    case FoundAnything => 4
    case _ => 1
  }

  datatype Clause = Clause(column: Column, shape: Shape, args: seq<Value>)

  /** A clause binds one value per placeholder. */
  predicate WellFormed(c: Clause) {
    |c.args| == Width(c.shape)
  }

  predicate AllWellFormed(cs: seq<Clause>) {
    forall i :: 0 <= i < |cs| ==> WellFormed(cs[i])
  }

  /** The literal text around the placeholders of a clause: one piece more than it has
      placeholders. */
  function Template(c: Clause): (t: seq<string>)
    ensures |t| == Width(c.shape) + 1
  {
    var col := ColumnText(c.column);
    match c.shape
    case AtMost => [col + " <= ", " "]
    case AtLeast => [col + " >= ", " "]
    case Between => [col + " >= ", " AND " + col + " <= ", ""]
    case Like => [col + " ILIKE ", ""]
    case LikeSpaced => [col + " ILIKE ", " "]
    case FoundAnything =>
      [col + " = ",
       FoundSubquery,
       " AND actions.id <= ",
       " AND r#>>'{foundanything}' = ",
       ") "]
  }

  /** The start of the subquery of the found-anything predicate, up to its first placeholder. */
  const FoundSubquery: string :=
    " AND commands.id IN (\tSELECT commands.id FROM commands, actions, json_array_elements(commands.results) as r"
    + " WHERE commands.actionid=actions.id AND actions.id >= "

  /** Literal pieces with numbered placeholders between them, numbered from `base + 1`. */
  function Weave(texts: seq<string>, base: nat): seq<Token>
    requires |texts| >= 1
  {
    if |texts| == 1 then [Lit(texts[0])]
    else Weave(texts[..|texts| - 1], base) + [Param(base + |texts| - 1), Lit(texts[|texts| - 1])]
  }

  /** The tokens of a clause whose placeholders start after `base`. */
  function Emit(base: nat, c: Clause): seq<Token> {
    Weave(Template(c), base)
  }

  /** The placeholder numbers of a token sequence, in order. */
  function Slots(ts: seq<Token>): seq<nat> {
    if ts == [] then []
    else Slots(ts[..|ts| - 1]) + (if ts[|ts| - 1].Param? then [ts[|ts| - 1].slot] else [])
  }

  /** How many separators a token sequence holds. */
  function AndCount(ts: seq<Token>): nat {
    if ts == [] then 0
    else AndCount(ts[..|ts| - 1]) + (if ts[|ts| - 1] == And then 1 else 0)
  }

  /** The numbers run lo, lo + 1, lo + 2, ... with no gap. */
  predicate NumberedFrom(s: seq<nat>, lo: nat) {
    forall i :: 0 <= i < |s| ==> s[i] == lo + i
  }

  /** The values a list of clauses binds, in order. */
  function ArgsOf(cs: seq<Clause>): seq<Value> {
    if cs == [] then [] else ArgsOf(cs[..|cs| - 1]) + cs[|cs| - 1].args
  }

  /** " AND " when a predicate is already there, that is, when a placeholder was used. */
  function Sep(valctr: nat): seq<Token> {
    if valctr > 0 then [And] else []
  }

  /** The WHERE text of a list of clauses: each clause numbered after the values of the earlier
      ones, preceded by " AND " when an earlier clause took a placeholder. */
  function Render(cs: seq<Clause>): seq<Token> {
    if cs == [] then []
    else
      var init := cs[..|cs| - 1];
      var n := |ArgsOf(init)|;
      Render(init) + Sep(n) + Emit(n, cs[|cs| - 1])
  }

  // ---------------------------------------------------------------------
  // Facts about the rendering

  lemma {:induction false} SlotsAppend(a: seq<Token>, b: seq<Token>)
    ensures Slots(a + b) == Slots(a) + Slots(b)
    decreases |b|
  {
    if b == [] {
      assert a + b == a;
    } else {
      var b' := b[..|b| - 1];
      assert (a + b)[..|a + b| - 1] == a + b';
      SlotsAppend(a, b');
    }
  }

  lemma {:induction false} AndCountAppend(a: seq<Token>, b: seq<Token>)
    ensures AndCount(a + b) == AndCount(a) + AndCount(b)
    decreases |b|
  {
    if b == [] {
      assert a + b == a;
    } else {
      var b' := b[..|b| - 1];
      assert (a + b)[..|a + b| - 1] == a + b';
      AndCountAppend(a, b');
    }
  }

  lemma NumberedAppend(a: seq<nat>, b: seq<nat>, lo: nat)
    requires NumberedFrom(a, lo) && NumberedFrom(b, lo + |a|)
    ensures NumberedFrom(a + b, lo)
  {
  }

  /** The placeholders of a weave are the next ones after `base`, in order, and it holds no
      separator. */
  lemma {:induction false} WeaveSlots(texts: seq<string>, base: nat)
    requires |texts| >= 1
    ensures |Slots(Weave(texts, base))| == |texts| - 1 && NumberedFrom(Slots(Weave(texts, base)), base + 1)
    ensures AndCount(Weave(texts, base)) == 0
    decreases |texts|
  {
    if |texts| == 1 {
      assert [Lit(texts[0])][..0] == [];
    } else {
      var init := texts[..|texts| - 1];
      var tail := [Param(base + |texts| - 1), Lit(texts[|texts| - 1])];
      WeaveSlots(init, base);
      SlotsPair(base + |texts| - 1, texts[|texts| - 1]);
      SlotsAppend(Weave(init, base), tail);
      AndCountAppend(Weave(init, base), tail);
      NumberedAppend(Slots(Weave(init, base)), Slots(tail), base + 1);
    }
  }

  lemma SlotsPair(n: nat, t: string)
    ensures Slots([Param(n), Lit(t)]) == [n] && AndCount([Param(n), Lit(t)]) == 0
  {
    var ts := [Param(n), Lit(t)];
    var one := [Param(n)];
    assert one[..0] == [];
    assert Slots(one) == [n];
    assert AndCount(one) == 0;
    assert ts[..1] == one;
    assert Slots(ts) == Slots(one) + [];
  }

  /** A clause uses exactly the next `Width` placeholders after `base`, in order, and holds no
      separator. */
  lemma EmitSlots(base: nat, c: Clause)
    ensures |Slots(Emit(base, c))| == Width(c.shape) && NumberedFrom(Slots(Emit(base, c)), base + 1)
    ensures AndCount(Emit(base, c)) == 0
  {
    WeaveSlots(Template(c), base);
  }

  /** A separator holds no placeholder. */
  lemma SepFacts(n: nat)
    ensures Slots(Sep(n)) == []
    ensures AndCount(Sep(n)) == (if n > 0 then 1 else 0)
  {
    if n > 0 {
      assert Sep(n)[..0] == [];
    }
  }

  /** Well-formed clauses bind one value per placeholder width; so a list binds a value
      exactly when it is not empty. */
  lemma {:induction false} ArgsOfLength(cs: seq<Clause>)
    requires AllWellFormed(cs)
    ensures |ArgsOf(cs)| >= |cs|
    ensures |ArgsOf(cs)| > 0 <==> cs != []
  {
    if cs != [] {
      ArgsOfLength(cs[..|cs| - 1]);
      assert WellFormed(cs[|cs| - 1]);
    }
  }

  /**
   * The numbering invariant: the placeholders of the WHERE text are $1, $2, ...,
   * one per bound value, in order and with no gap.
   */
  lemma {:induction false} RenderNumbering(cs: seq<Clause>)
    requires AllWellFormed(cs)
    ensures |Slots(Render(cs))| == |ArgsOf(cs)| && NumberedFrom(Slots(Render(cs)), 1)
  {
    if cs != [] {
      var init := cs[..|cs| - 1];
      var c := cs[|cs| - 1];
      var n := |ArgsOf(init)|;
      assert AllWellFormed(init);
      assert |ArgsOf(cs)| == n + Width(c.shape) by {
        assert WellFormed(c);
      }
      RenderNumbering(init);
      SlotsAppend(Render(init) + Sep(n), Emit(n, c));
      SlotsAppend(Render(init), Sep(n));
      SepFacts(n);
      EmitSlots(n, c);
      assert Slots(Render(cs)) == Slots(Render(init)) + [] + Slots(Emit(n, c));
      assert Slots(Render(init)) + [] == Slots(Render(init));
      NumberedAppend(Slots(Render(init)), Slots(Emit(n, c)), 1);
    }
  }

  /** The separator token stands between every two predicates and nowhere else. */
  lemma {:induction false} RenderSeparators(cs: seq<Clause>)
    requires AllWellFormed(cs)
    ensures AndCount(Render(cs)) == if cs == [] then 0 else |cs| - 1
  {
    if cs != [] {
      var init := cs[..|cs| - 1];
      var c := cs[|cs| - 1];
      var n := |ArgsOf(init)|;
      assert AllWellFormed(init);
      RenderSeparators(init);
      ArgsOfLength(init);
      AndCountAppend(Render(init) + Sep(n), Emit(n, c));
      AndCountAppend(Render(init), Sep(n));
      SepFacts(n);
      EmitSlots(n, c);
    }
  }

  /** The separator before a new clause is there exactly when an earlier clause is. */
  lemma SeparatorIffEarlier(cs: seq<Clause>, c: Clause)
    requires AllWellFormed(cs)
    ensures Render(cs + [c]) == Render(cs) + (if cs != [] then [And] else []) + Emit(|ArgsOf(cs)|, c)
  {
    assert (cs + [c])[..|cs|] == cs;
    ArgsOfLength(cs);
  }

  /** Each clause's values sit right after the values of the clauses before it. */
  lemma {:induction false} ArgsOfPrefix(cs: seq<Clause>, i: nat)
    requires i < |cs|
    ensures var before := |ArgsOf(cs[..i])|;
      before + |cs[i].args| <= |ArgsOf(cs)| &&
      ArgsOf(cs)[before..before + |cs[i].args|] == cs[i].args
    decreases |cs|
  {
    var init := cs[..|cs| - 1];
    if i == |cs| - 1 {
      assert cs[..i] == init;
    } else {
      ArgsOfPrefix(init, i);
      assert init[..i] == cs[..i];
      assert init[i] == cs[i];
      var before := |ArgsOf(cs[..i])|;
      assert ArgsOf(cs) == ArgsOf(init) + cs[|cs| - 1].args;
      assert ArgsOf(cs)[before..before + |cs[i].args|] == ArgsOf(init)[before..before + |cs[i].args|];
    }
  }

  // ---------------------------------------------------------------------
  // The builder a search fills in

  /**
   * The running state of a search: the WHERE text, the values bound so far and
   * the counter of placeholders already used. The clauses added so far are
   * its meaning.
   */
  class WhereBuilder {
    var where: seq<Token>
    var vals: seq<Value>
    var valctr: nat
    ghost var clauses: seq<Clause>

    ghost predicate Valid()
      reads this
    {
      AllWellFormed(clauses) && where == Render(clauses) && vals == ArgsOf(clauses) && valctr == |vals|
    }

    constructor()
      ensures Valid() && clauses == [] && where == [] && vals == [] && valctr == 0
    {
      where, vals, valctr := [], [], 0;
      clauses := [];
    }

    /** Appends one predicate: " AND " first when a predicate is there, then the clause numbered
        from `valctr + 1`, its values, and the counter moved past them. */
    method Add(c: Clause)
      requires Valid() && WellFormed(c)
      modifies this
      ensures Valid() && clauses == old(clauses) + [c]
      ensures where == old(where) + Sep(old(valctr)) + Emit(old(valctr), c)
      ensures vals == old(vals) + c.args && valctr == old(valctr) + Width(c.shape)
    {
      ghost var cs := clauses + [c];
      assert cs[..|cs| - 1] == clauses;
      assert AllWellFormed(cs);
      if valctr > 0 {
        where := where + [And];
      }
      where := where + Emit(valctr, c);
      vals := vals + c.args;
      valctr := valctr + Width(c.shape);
      clauses := cs;
    }
  }
}
