/** Query filters: what the API's operators mean, the conditions they are compiled to, and
    the WHERE that the base service assembles from those conditions.

    A condition is compiled from an entry of the filter and printed as text. The WHERE is the printed
    conditions joined by AND, without parentheses, and `Text` reads it as SQL does. */
module Filters {
  import opened Entities
  import opened Text

  const COMMA := ","
  const LIST_SEPARATOR := ", "

  /** One key of the raw filter with its operators, both in the order of `Object.keys`. */
  datatype Entry = Entry(key: string, ops: seq<(string, string)>)

  datatype Kind = StringKind | General | Number | RangeKind | ArrayKind

  datatype Operator = Operator(sql: string, kind: Kind)

  datatype Condition = Condition(fields: seq<string>, operator: string, criteria: string)

  function MapOperator(op: string): Option<Operator> {
    match op
    case "like" => Some(Operator("like", StringKind))
    case "!like" => Some(Operator("not like", StringKind))
    case "is" => Some(Operator("=", General))
    case "!is" => Some(Operator("<>", General))
    case "between" => Some(Operator("between", RangeKind))
    case "gt" => Some(Operator(">", General))
    case "gte" => Some(Operator(">=", Number))
    case "lt" => Some(Operator("<", General))
    case "lte" => Some(Operator("<=", Number))
    case "in" => Some(Operator("in", ArrayKind))
    case "!in" => Some(Operator("not in", ArrayKind))
    case _ => None
  }

  function BuildRangeValues(criterion: string): string {
    Join(QuotedAll(Split(criterion, LIST_SEPARATOR)), " and ")
  }

  function BuildArrayValue(criterion: string): string {
    "(" + Join(QuotedAll(Split(criterion, LIST_SEPARATOR)), LIST_SEPARATOR) + ")"
  }

  function MapCriteria(kind: Kind, criterion: string): string {
    match kind
    case RangeKind => BuildRangeValues(criterion)
    case StringKind => Quoted(criterion)
    case General => Quoted(criterion)
    case Number => criterion
    case ArrayKind => BuildArrayValue(criterion)
  }

  /** The eleven operators of the API are the supported ones. Two of them print their criterion as it is;
      every other puts quotes around it, or around each of its pieces. */
  lemma SupportedOperators(op: string, criterion: string)
    ensures MapOperator(op).Some? <==> op in {"like", "!like", "is", "!is", "between", "gt", "gte", "lt", "lte", "in", "!in"}
    ensures op in {"gte", "lte"} ==> MapCriteria(MapOperator(op).value.kind, criterion) == criterion
    ensures MapOperator(op).Some? && op !in {"gte", "lte"} ==> QUOTE in MapCriteria(MapOperator(op).value.kind, criterion)
  {
    var pieces := Split(criterion, LIST_SEPARATOR);
    JoinOfQuoted(pieces, " and ");
    JoinOfQuoted(pieces, LIST_SEPARATOR);
    assert QUOTE in Quoted(criterion);
    hide Split, Join, QuotedAll, Quoted;
  }

  lemma JoinOfQuoted(pieces: seq<string>, separator: string)
    requires pieces != []
    ensures QUOTE in Join(QuotedAll(pieces), separator)
  {
    assert QuotedAll(pieces)[0] == Quoted(pieces[0]) && QUOTE in Quoted(pieces[0]);
    if |pieces| == 1 { assert QuotedAll(pieces) == [Quoted(pieces[0])]; }
  }

  // ----- Literals read back as the criterion, exactly when it is clean -----

  lemma {:induction false} BodyWithoutQuotes(s: string, rest: string)
    requires QUOTE !in s && (rest == "" || rest[0] != QUOTE)
    ensures ReadBody(s + [QUOTE] + rest) == Reading(s, rest)
  {
    var t := s + [QUOTE] + rest;
    if s == "" {
      assert t[1..] == rest;
    } else {
      BodyWithoutQuotes(s[1..], rest);
      assert t[1..] == s[1..] + [QUOTE] + rest;
      assert [s[0]] + s[1..] == s;
    }
  }

  lemma QuotedReadsBack(s: string, rest: string)
    requires QUOTE !in s && (rest == "" || rest[0] != QUOTE)
    ensures ReadScalar(Quoted(s) + rest) == Reading(StringLit(s), rest)
  {
    BodyWithoutQuotes(s, rest);
    assert (Quoted(s) + rest)[1..] == s + [QUOTE] + rest;
    hide ReadBody, ReadWord;
  }

  lemma NumberIsWord(s: string)
    requires IsNumber(s)
    ensures s != "" && AllWord(s) && s[0] != QUOTE
  {
    var i: nat :| i <= |s| && i > 0 && AllDigits(s[..i]) && (s[i..] == "" || (s[i] == '.' && AllDigits(s[i + 1..])));
    forall j | 0 <= j < |s| ensures IsWordChar(s[j]) {
      if j < i { assert s[..i][j] == s[j]; }
      if j > i { assert s[i + 1..][j - i - 1] == s[j]; }
    }
  }

  lemma NumberReadsBack(s: string, rest: string)
    requires IsNumber(s) && (rest == "" || !IsWordChar(rest[0]))
    ensures ReadScalar(s + rest) == Reading(NumberLit(s), rest)
  {
    NumberIsWord(s);
    WordReadsBack(s, rest);
    assert (s + rest)[0] == s[0];
    hide ReadWord, IsNumber, IsWordChar;
  }

  /** The literals a caller means by quoting pieces. */
  function StringLits(pieces: seq<string>): (r: seq<Literal>)
    ensures |r| == |pieces|
  {
    if pieces == [] then [] else [StringLit(pieces[0])] + StringLits(pieces[1..])
  }

  lemma {:induction false} QuotesOfJoin(pieces: seq<string>, sep: string)
    requires QUOTE !in sep
    ensures Quotes(Join(pieces, sep)) == QuotesOf(pieces)
  {
    if |pieces| > 1 {
      QuotesOfJoin(pieces[1..], sep);
      QuotesAdd(pieces[0] + sep, Join(pieces[1..], sep));
      QuotesAdd(pieces[0], sep);
    } else if |pieces| == 1 {
      assert QuotesOf(pieces[1..]) == 0;
    }
  }

  lemma {:induction false} QuotesOfQuotedAll(pieces: seq<string>)
    ensures QuotesOf(QuotedAll(pieces)) == QuotesOf(pieces) + 2 * |pieces|
    ensures WeightOf(StringLits(pieces)) == 2 * QuotesOf(pieces) + 2 * |pieces|
  {
    if pieces != [] {
      QuotesOfQuoted(pieces[0]);
      QuotesOfQuotedAll(pieces[1..]);
      assert QuotedAll(pieces)[1..] == QuotedAll(pieces[1..]);
      assert StringLits(pieces)[1..] == StringLits(pieces[1..]);
    }
  }

  lemma {:induction false} NoQuotesIffNoneInPieces(pieces: seq<string>)
    ensures QuotesOf(pieces) == 0 <==> forall p | p in pieces :: QUOTE !in p
  {
    if pieces != [] {
      NoQuotesIffNoneInPieces(pieces[1..]);
      assert pieces == [pieces[0]] + pieces[1..];
    }
  }

  /** The pieces of a criterion hold as many quotes as the criterion. */
  lemma QuotesOfPieces(criterion: string)
    ensures QuotesOf(Split(criterion, LIST_SEPARATOR)) == Quotes(criterion)
  {
    QuotesOfJoin(Split(criterion, LIST_SEPARATOR), LIST_SEPARATOR);
    JoinUndoesSplit(criterion, LIST_SEPARATOR);
  }

  /** What follows a criterion in the WHERE. */
  predicate Ends(rest: string) { rest == "" || rest[0] == ' ' }

  lemma JoinedStartsWithQuote(pieces: seq<string>, sep: string)
    requires pieces != []
    ensures var joined := Join(QuotedAll(pieces), sep); joined != "" && joined[0] == QUOTE
  {
    assert QuotedAll(pieces)[0] == Quoted(pieces[0]);
  }

  lemma ItemThenItems(item: string, tail: string, items: seq<Literal>, rest: string)
    requires QUOTE !in item && tail != "" && tail[0] == QUOTE && ReadItems(tail) == Reading(items, rest)
    ensures ReadItems(Quoted(item) + (LIST_SEPARATOR + tail)) == Reading([StringLit(item)] + items, rest)
  {
    var after := LIST_SEPARATOR + tail;
    QuotedReadsBack(item, after);
    hide Quoted, ReadScalar, SkipSpaces;
    AfterComma(tail);
  }

  lemma AfterComma(tail: string)
    requires tail != "" && tail[0] == QUOTE
    ensures var after := LIST_SEPARATOR + tail; after[0] == ',' && SkipSpaces(after) == after && SkipSpaces(after[1..]) == tail
  {
    var after := LIST_SEPARATOR + tail;
    assert after[1..] == " " + tail;
    SpacesSkipped(tail);
  }

  lemma LastItem(item: string, rest: string)
    requires QUOTE !in item
    ensures ReadItems(Quoted(item) + (")" + rest)) == Reading([StringLit(item)], rest)
  {
    QuotedReadsBack(item, ")" + rest);
    hide Quoted, ReadScalar;
    assert (")" + rest)[1..] == rest;
  }

  lemma JoinedQuoted(pieces: seq<string>, sep: string)
    requires pieces != []
    ensures |pieces| == 1 ==> Join(QuotedAll(pieces), sep) == Quoted(pieces[0])
    ensures |pieces| > 1 ==> Join(QuotedAll(pieces), sep) == Quoted(pieces[0]) + sep + Join(QuotedAll(pieces[1..]), sep)
  {
    assert QuotedAll(pieces)[0] == Quoted(pieces[0]) && QuotedAll(pieces)[1..] == QuotedAll(pieces[1..]);
  }

  lemma Regroup(item: string, sep: string, items: string, close: string, rest: string)
    ensures item + sep + items + close + rest == item + (sep + (items + close + rest))
    ensures item + close + rest == item + (close + rest)
  {
  }

  lemma {:induction false} CleanItemsReadBack(pieces: seq<string>, rest: string)
    requires pieces != [] && (forall p | p in pieces :: QUOTE !in p) && Ends(rest)
    ensures ReadItems(Join(QuotedAll(pieces), LIST_SEPARATOR) + ")" + rest) == Reading(StringLits(pieces), rest)
  {
    JoinedQuoted(pieces, LIST_SEPARATOR);
    hide ReadItems, QuotedAll, Join, Quoted;
    if |pieces| == 1 {
      LastItem(pieces[0], rest);
      Regroup(Quoted(pieces[0]), "", "", ")", rest);
      assert StringLits(pieces) == [StringLit(pieces[0])];
    } else {
      var items := Join(QuotedAll(pieces[1..]), LIST_SEPARATOR);
      CleanItemsReadBack(pieces[1..], rest);
      JoinedStartsWithQuote(pieces[1..], LIST_SEPARATOR);
      ItemThenItems(pieces[0], items + ")" + rest, StringLits(pieces[1..]), rest);
      Regroup(Quoted(pieces[0]), LIST_SEPARATOR, items, ")", rest);
    }
  }

  lemma CleanRangeReadsBack(lo: string, hi: string, rest: string)
    requires QUOTE !in lo && QUOTE !in hi && Ends(rest)
    ensures ReadRange(Quoted(lo) + " and " + Quoted(hi) + rest) == Reading([StringLit(lo), StringLit(hi)], rest)
  {
    var tail := Quoted(hi) + rest;
    var middle := " and " + tail;
    assert Quoted(lo) + " and " + Quoted(hi) + rest == Quoted(lo) + middle;
    QuotedReadsBack(lo, middle);
    QuotedReadsBack(hi, rest);
    assert tail[0] == QUOTE;
    hide Quoted, ReadScalar;
    assert middle[1..] == "and" + (" " + tail);
    assert SkipSpaces(middle) == "and" + (" " + tail);
    WordReadsBack("and", " " + tail);
    hide ReadWord;
    assert (" " + tail)[1..] == tail;
    assert SkipSpaces(" " + tail) == tail;
  }

  lemma RangeOfTwo(lo: string, hi: string)
    ensures Join(QuotedAll([lo, hi]), " and ") == Quoted(lo) + " and " + Quoted(hi)
    ensures StringLits([lo, hi]) == [StringLit(lo), StringLit(hi)]
  {
    assert [lo, hi][1..] == [hi] && [hi][1..] == [];
    assert QuotedAll([hi]) == [Quoted(hi)] + QuotedAll([]);
    assert QuotedAll([lo, hi]) == [Quoted(lo)] + QuotedAll([hi]);
    assert QuotedAll([lo, hi])[1..] == [Quoted(hi)] && Join([Quoted(hi)], " and ") == Quoted(hi);
    assert StringLits([hi]) == [StringLit(hi)] + StringLits([]);
  }

  /** The literals a caller means by a criterion. */
  function Meant(kind: Kind, criterion: string): seq<Literal> {
    if kind.RangeKind? || kind.ArrayKind? then StringLits(Split(criterion, LIST_SEPARATOR))
    else if kind.Number? then [NumberLit(criterion)]
    else [StringLit(criterion)]
  }

  /** What a caller can look at before the request: no quotes, two bounds in a range, and a
      number where the compiler prints the criterion bare. */
  predicate Clean(kind: Kind, criterion: string) {
    match kind
    case Number => IsNumber(criterion)
    case RangeKind => QUOTE !in criterion && |Split(criterion, LIST_SEPARATOR)| == 2
    case _ => QUOTE !in criterion
  }

  /** Lists and ranges are compiled to the SQL operators whose operands are lists and ranges. */
  lemma KindsFollowOperators(op: string)
    requires MapOperator(op).Some?
    ensures
      var m := MapOperator(op).value;
      && (m.kind.ArrayKind? <==> m.sql == "in" || m.sql == "not in")
      && (m.kind.RangeKind? <==> m.sql == "between")
  {
  }

  lemma CleanListReadsBack(criterion: string, rest: string)
    requires QUOTE !in criterion && Ends(rest)
    ensures ReadList(BuildArrayValue(criterion) + rest) == Reading(StringLits(Split(criterion, LIST_SEPARATOR)), rest)
  {
    hide ReadItems, QuotedAll, Join, Quotes, Split;
    var pieces := Split(criterion, LIST_SEPARATOR);
    PiecesHoldNoQuote(criterion);
    CleanItemsReadBack(pieces, rest);
    var inner := Join(QuotedAll(pieces), LIST_SEPARATOR) + ")" + rest;
    assert BuildArrayValue(criterion) + rest == "(" + inner;
    assert ("(" + inner)[1..] == inner;
  }

  lemma CleanPairReadsBack(criterion: string, rest: string)
    requires QUOTE !in criterion && |Split(criterion, LIST_SEPARATOR)| == 2 && Ends(rest)
    ensures ReadRange(BuildRangeValues(criterion) + rest) == Reading(StringLits(Split(criterion, LIST_SEPARATOR)), rest)
  {
    hide ReadRange, QuotedAll, Join, Split, StringLits;
    var pieces := Split(criterion, LIST_SEPARATOR);
    PiecesHoldNoQuote(criterion);
    assert pieces == [pieces[0], pieces[1]];
    RangeOfTwo(pieces[0], pieces[1]);
    CleanRangeReadsBack(pieces[0], pieces[1], rest);
  }

  /** Clean criteria read back as what the caller meant, whatever follows them. */
  lemma CleanReadsBack(op: string, criterion: string, rest: string)
    requires MapOperator(op).Some? && Clean(MapOperator(op).value.kind, criterion) && Ends(rest)
    ensures var m := MapOperator(op).value;
            ReadOperands(m.sql, MapCriteria(m.kind, criterion) + rest) == Reading(Meant(m.kind, criterion), rest)
  {
    KindsFollowOperators(op);
    var m := MapOperator(op).value;
    hide MapOperator, ReadScalar, ReadRange, ReadList, IsNumber, Quoted, BuildRangeValues, BuildArrayValue, Split, StringLits;
    match m.kind
    case Number => NumberReadsBack(criterion, rest);
    case StringKind => QuotedReadsBack(criterion, rest);
    case General => QuotedReadsBack(criterion, rest);
    case RangeKind => CleanPairReadsBack(criterion, rest);
    case ArrayKind => CleanListReadsBack(criterion, rest);
  }

  lemma PiecesHoldNoQuote(criterion: string)
    requires QUOTE !in criterion
    ensures forall p | p in Split(criterion, LIST_SEPARATOR) :: QUOTE !in p
  {
    QuotesOfPieces(criterion);
    NoQuotesIffNoneInPieces(Split(criterion, LIST_SEPARATOR));
  }

  lemma ListWeight(criterion: string)
    ensures Quotes(BuildArrayValue(criterion)) + Quotes(criterion) == WeightOf(StringLits(Split(criterion, LIST_SEPARATOR)))
  {
    var pieces := Split(criterion, LIST_SEPARATOR);
    var joined := Join(QuotedAll(pieces), LIST_SEPARATOR);
    OneCharacter('(');
    OneCharacter(')');
    hide Quotes, WeightOf, Split, Join, QuotedAll, StringLits;
    QuotesOfPieces(criterion);
    QuotesOfQuotedAll(pieces);
    QuotesOfJoin(QuotedAll(pieces), LIST_SEPARATOR);
    QuotesAdd("(", joined);
    QuotesAdd("(" + joined, ")");
  }

  lemma RangeWeight(criterion: string)
    ensures Quotes(BuildRangeValues(criterion)) + Quotes(criterion) == WeightOf(StringLits(Split(criterion, LIST_SEPARATOR)))
  {
    hide Quotes, WeightOf, Split, Join, QuotedAll, StringLits;
    var pieces := Split(criterion, LIST_SEPARATOR);
    QuotesOfPieces(criterion);
    QuotesOfQuotedAll(pieces);
    QuotesOfJoin(QuotedAll(pieces), " and ");
  }

  /** Printing a criterion costs fewer quotes than its literals would, by the number it holds itself;
      a number is printed as it is. */
  lemma PrintedWeight(kind: Kind, criterion: string)
    ensures !kind.Number? ==>
      Quotes(MapCriteria(kind, criterion)) + Quotes(criterion) == WeightOf(Meant(kind, criterion))
    ensures kind.Number? ==> Quotes(MapCriteria(kind, criterion)) == Quotes(criterion) && WeightOf(Meant(kind, criterion)) == 0
  {
    WeightOfTwo(StringLit(criterion), NumberLit(criterion));
    WeightOfTwo(NumberLit(criterion), NumberLit(criterion));
    hide Quotes, WeightOf, Split, StringLits, Quoted, BuildRangeValues, BuildArrayValue;
    ListWeight(criterion);
    RangeWeight(criterion);
    QuotesOfQuoted(criterion);
  }

  lemma OneCharacter(c: char)
    requires c != QUOTE
    ensures Quotes([c]) == 0
  {
  }

  /** Literals that could have been read are meant only by clean criteria, but for the quotes in them. */
  lemma ReadableIsClean(kind: Kind, criterion: string)
    requires AllWellRead(Meant(kind, criterion)) && (kind.RangeKind? ==> |Meant(kind, criterion)| == 2)
    requires !kind.Number? ==> QUOTE !in criterion
    ensures Clean(kind, criterion)
  {
    if kind.Number? {
      assert NumberLit(criterion) in Meant(kind, criterion);
    }
    hide IsNumber;
  }

  /** The database reads the operands the caller meant iff the criterion is clean. */
  lemma OperandsAreKeptIffClean(op: string, criterion: string)
    requires MapOperator(op).Some?
    ensures
      var m := MapOperator(op).value;
      ReadOperands(m.sql, MapCriteria(m.kind, criterion)) == Reading(Meant(m.kind, criterion), "") <==> Clean(m.kind, criterion)
  {
    var m := MapOperator(op).value;
    var text := MapCriteria(m.kind, criterion);
    KindsFollowOperators(op);
    if Clean(m.kind, criterion) {
      CleanReadsBack(op, criterion, "");
      assert text + "" == text;
    }
    hide MapOperator, ReadOperands, MapCriteria, Meant, Clean, WeightOf, AllWellRead;
    if ReadOperands(m.sql, text) == Reading(Meant(m.kind, criterion), "") {
      OperandsQuotes(m.sql, text);
      PrintedWeight(m.kind, criterion);
      ReadableIsClean(m.kind, criterion);
    }
  }

  /** A criterion between quotes reads back as itself iff it holds no quote. */
  lemma ScalarIsKeptIff(s: string)
    ensures ReadScalar(Quoted(s)) == Reading(StringLit(s), "") <==> QUOTE !in s
  {
    OperandsAreKeptIffClean("is", s);
    assert MapOperator("is") == Some(Operator("=", General));
  }

  /** A criterion that is printed bare reads back as itself iff it is a number. */
  lemma NumberIsKeptIff(s: string)
    ensures ReadScalar(s) == Reading(NumberLit(s), "") <==> IsNumber(s)
  {
    OperandsAreKeptIffClean("gte", s);
    assert MapOperator("gte") == Some(Operator(">=", Number));
    hide ReadScalar, IsNumber;
  }

  /** The printed list reads back as the pieces of the criterion iff the criterion holds no quote. */
  lemma ListIsKeptIff(criterion: string)
    ensures ReadList(BuildArrayValue(criterion)) == Reading(StringLits(Split(criterion, LIST_SEPARATOR)), "") <==> QUOTE !in criterion
  {
    OperandsAreKeptIffClean("in", criterion);
    assert MapOperator("in") == Some(Operator("in", ArrayKind));
    hide ReadList, BuildArrayValue, Split, StringLits;
  }

  /** A range reads back as its two bounds iff the criterion has two pieces and no quote. */
  lemma RangeIsKeptIff(criterion: string)
    ensures
      var pieces := Split(criterion, LIST_SEPARATOR);
      ReadRange(BuildRangeValues(criterion)) == Reading(StringLits(pieces), "") <==> |pieces| == 2 && QUOTE !in criterion
  {
    OperandsAreKeptIffClean("between", criterion);
    assert MapOperator("between") == Some(Operator("between", RangeKind));
    hide ReadRange, BuildRangeValues, Split, StringLits;
  }

  // ----- Building the two lists of conditions -----

  /** The operator an entry names, which is the first of its keys; the source ignores the others. */
  function OperatorOf(e: Entry): Option<Operator> {
    if e.ops == [] then None else MapOperator(e.ops[0].0)
  }

  function CriterionOf(e: Entry): string { if e.ops == [] then "" else e.ops[0].1 }

  function Compile(e: Entry): Condition
    requires OperatorOf(e).Some?
  {
    var m := OperatorOf(e).value;
    Condition(Split(e.key, COMMA), m.sql, MapCriteria(m.kind, CriterionOf(e)))
  }

  /** The text the query builder receives. */
  function Print(c: Condition): string { Join(c.fields, COMMA) + " " + c.operator + " " + c.criteria }

  /** A condition is printed with the whole key of its entry, whatever fields the key names. */
  lemma PrintKeepsTheKey(e: Entry)
    requires OperatorOf(e).Some?
    ensures var m := OperatorOf(e).value;
            Print(Compile(e)) == e.key + " " + m.sql + " " + MapCriteria(m.kind, CriterionOf(e))
  {
    JoinUndoesSplit(e.key, COMMA);
  }

  predicate Dotted(e: Entry) { '.' in e.key }

  predicate Supported(raw: seq<Entry>) { forall e | e in raw :: OperatorOf(e).Some? }

  /** The conditions of the first `n` entries that go to the list for dotted (or undotted)
      keys: one copy for every field of a key. */
  function Conditions(raw: seq<Entry>, n: nat, dotted: bool): seq<Condition>
    requires n <= |raw| && Supported(raw[..n])
  {
    if n == 0 then []
    else
      assert raw[..n - 1] == raw[..n][..n - 1] && raw[..n][n - 1] == raw[n - 1];
      Conditions(raw, n - 1, dotted) + (if Dotted(raw[n - 1]) == dotted then Copies(raw[n - 1]) else [])
  }

  function Copies(e: Entry): (r: seq<Condition>)
    requires OperatorOf(e).Some?
    ensures r != []
  {
    seq(|Split(e.key, COMMA)|, _ => Compile(e))
  }

  datatype Built = BadQueryParameter(entry: Entry) | Built(filter: seq<Condition>, where: seq<Condition>)

  method BuildFilter(raw: seq<Entry>) returns (r: Built)
    ensures r.Built? <==> Supported(raw)
    ensures r.Built? ==> r.filter == Conditions(raw, |raw|, true) && r.where == Conditions(raw, |raw|, false)
    ensures r.BadQueryParameter? ==>
              exists n: nat | n < |raw| :: raw[n] == r.entry && OperatorOf(raw[n]).None? && Supported(raw[..n])
  {
    var filter, where := [], [];
    for index := 0 to |raw|
      invariant Supported(raw[..index])
      invariant filter == Conditions(raw, index, true) && where == Conditions(raw, index, false)
    {
      var e := raw[index];
      var operator := OperatorOf(e);
      if operator.None? {
        return BadQueryParameter(e);
      }
      var criteria := MapCriteria(operator.value.kind, CriterionOf(e));
      var fields := Split(e.key, COMMA);
      var condition := Condition(fields, operator.value.sql, criteria);
      assert raw[..index + 1] == raw[..index] + [e];
      ghost var filter0, where0 := filter, where;
      for k := 0 to |fields|
        invariant filter == filter0 + (if Dotted(e) then seq(k, _ => condition) else [])
        invariant where == where0 + (if Dotted(e) then [] else seq(k, _ => condition))
      {
        if Dotted(e) {
          filter := filter + [condition];
        } else {
          where := where + [condition];
        }
      }
      assert seq(|fields|, _ => condition) == Copies(e);
    }
    assert raw[..|raw|] == raw;
    return Built(filter, where);
  }

  // ----- The WHERE the base service assembles -----

  /** The query builder: `where` replaces the conditions it holds, `andWhere` adds one. */
  class QueryBuilder {
    var wheres: seq<Condition>

    constructor ()
      ensures wheres == []
    {
      wheres := [];
    }

    method Where(c: Condition)
      modifies this
      ensures wheres == [c]
    {
      wheres := [c];
    }

    method AndWhere(c: Condition)
      modifies this
      ensures wheres == old(wheres) + [c]
    {
      wheres := wheres + [c];
    }

    /** One pass over a list: its first condition replaces whatever an earlier pass left. The
        source skips empty texts, but a printed condition has spaces in it. */
    method Apply(conditions: seq<Condition>)
      modifies this
      ensures wheres == if conditions == [] then old(wheres) else conditions
    {
      for index := 0 to |conditions|
        invariant wheres == if index == 0 then old(wheres) else conditions[..index]
      {
        if index == 0 {
          Where(conditions[index]);
        } else {
          AndWhere(conditions[index]);
        }
        assert conditions[..index + 1] == conditions[..index] + [conditions[index]];
      }
    }
  }

  /** The list that ends up in the WHERE. */
  function Final(filter: seq<Condition>, where: seq<Condition>): seq<Condition> {
    if where == [] then filter else where
  }

  method Query(filter: seq<Condition>, where: seq<Condition>) returns (builder: QueryBuilder)
    ensures fresh(builder) && builder.wheres == Final(filter, where)
  {
    builder := new QueryBuilder();
    builder.Apply(filter);
    builder.Apply(where);
  }

  function FinalOf(raw: seq<Entry>): seq<Condition>
    requires Supported(raw)
  {
    assert raw[..|raw|] == raw;
    Final(Conditions(raw, |raw|, true), Conditions(raw, |raw|, false))
  }

  lemma {:induction false} ConditionsAreCompiled(raw: seq<Entry>, n: nat, dotted: bool, c: Condition)
    requires n <= |raw| && Supported(raw[..n])
    ensures c in Conditions(raw, n, dotted) <==>
            exists i: nat | i < n :: raw[i] in raw[..n] && Dotted(raw[i]) == dotted && Compile(raw[i]) == c
  {
    if n > 0 {
      var e := raw[n - 1];
      assert raw[..n] == raw[..n - 1] + [e];
      ConditionsAreCompiled(raw, n - 1, dotted, c);
      assert Copies(e)[0] == Compile(e);
      forall i: nat | i < n
        ensures raw[i] in raw[..n]
      {
        assert raw[..n][i] == raw[i];
      }
      forall i: nat | i < n - 1
        ensures raw[i] in raw[..n - 1]
      {
        assert raw[..n - 1][i] == raw[i];
      }
    }
  }

  predicate Mixed(raw: seq<Entry>) {
    (exists e | e in raw :: Dotted(e)) && (exists e | e in raw :: !Dotted(e))
  }

  /** The conditions that reach the database. */
  lemma FinalIs(raw: seq<Entry>, c: Condition)
    requires Supported(raw)
    ensures c in FinalOf(raw) <==>
            exists e | e in raw :: Compile(e) == c && (Dotted(e) ==> forall e' | e' in raw :: Dotted(e'))
  {
    assert raw[..|raw|] == raw;
    ConditionsAreCompiled(raw, |raw|, true, c);
    ConditionsAreCompiled(raw, |raw|, false, c);
    var where := Conditions(raw, |raw|, false);
    if e: Entry :| e in raw && !Dotted(e) {
      ConditionsAreCompiled(raw, |raw|, false, Compile(e));
      assert where != [];
    } else {
      if where != [] {
        ConditionsAreCompiled(raw, |raw|, false, where[0]);
      }
    }
  }

  /** Whichever conditions hold of a row: the WHERE asks for the ones in `holding`. */
  ghost predicate Holds(conditions: seq<Condition>, holding: set<Condition>) {
    forall c | c in conditions :: c in holding
  }

  ghost predicate AllHold(raw: seq<Entry>, holding: set<Condition>)
    requires Supported(raw)
  {
    forall e | e in raw :: Compile(e) in holding
  }

  /** Whatever the conditions mean, the WHERE asks for all of them exactly when the filter
      does not mix dotted and undotted keys. */
  lemma MeaningIsKeptIffNotMixed(raw: seq<Entry>)
    requires Supported(raw)
    ensures (forall holding: set<Condition> :: Holds(FinalOf(raw), holding) <==> AllHold(raw, holding)) <==> !Mixed(raw)
  {
    forall c
      ensures c in FinalOf(raw) <==>
              exists e | e in raw :: Compile(e) == c && (Dotted(e) ==> forall e' | e' in raw :: Dotted(e'))
    {
      FinalIs(raw, c);
    }
    if Mixed(raw) {
      var dotted, undotted :| dotted in raw && undotted in raw && Dotted(dotted) && !Dotted(undotted);
      var holding := set c | c in FinalOf(raw);
      assert Holds(FinalOf(raw), holding);
      if Compile(dotted) in FinalOf(raw) {
        var e :| e in raw && Compile(e) == Compile(dotted) && !Dotted(e);
        JoinUndoesSplit(e.key, COMMA);
        JoinUndoesSplit(dotted.key, COMMA);
        assert false;
      }
      assert !AllHold(raw, holding);
    } else {
      forall holding: set<Condition>
        ensures Holds(FinalOf(raw), holding) <==> AllHold(raw, holding)
      {
        if Holds(FinalOf(raw), holding) {
          forall e | e in raw
            ensures Compile(e) in holding
          {
            assert Compile(e) in FinalOf(raw);
          }
        }
      }
    }
  }

  // ----- The WHERE as text -----

  /** The entries whose conditions reach the database, one for each condition. */
  function Sources(raw: seq<Entry>, n: nat, dotted: bool): seq<Entry>
    requires n <= |raw|
  {
    if n == 0 then []
    else
      Sources(raw, n - 1, dotted)
      + (if Dotted(raw[n - 1]) == dotted then seq(|Split(raw[n - 1].key, COMMA)|, _ => raw[n - 1]) else [])
  }

  function Reached(raw: seq<Entry>): seq<Entry> {
    if Sources(raw, |raw|, false) == [] then Sources(raw, |raw|, true) else Sources(raw, |raw|, false)
  }

  function CompileAll(es: seq<Entry>): (r: seq<Condition>)
    requires Supported(es)
    ensures |r| == |es|
  {
    seq(|es|, i requires 0 <= i < |es| => assert es[i] in es; Compile(es[i]))
  }

  lemma {:induction false} SourcesAre(raw: seq<Entry>, n: nat, dotted: bool)
    requires n <= |raw|
    ensures forall e :: e in Sources(raw, n, dotted) <==> exists i: nat :: i < n && raw[i] == e && Dotted(e) == dotted
  {
    if n > 0 {
      SourcesAre(raw, n - 1, dotted);
      var e := raw[n - 1];
      var copies := seq(|Split(e.key, COMMA)|, _ => e);
      assert copies[0] == e;
    }
  }

  lemma {:induction false} ConditionsAreSources(raw: seq<Entry>, n: nat, dotted: bool)
    requires n <= |raw| && Supported(raw[..n])
    ensures Supported(Sources(raw, n, dotted))
    ensures Conditions(raw, n, dotted) == CompileAll(Sources(raw, n, dotted))
  {
    if n > 0 {
      var e := raw[n - 1];
      assert raw[..n] == raw[..n - 1] + [e];
      ConditionsAreSources(raw, n - 1, dotted);
      var copies := seq(|Split(e.key, COMMA)|, _ => e);
      assert forall e' <- copies :: e' == e;
      assert CompileAll(copies) == Copies(e);
      var before := Sources(raw, n - 1, dotted);
      assert CompileAll(before + copies) == CompileAll(before) + CompileAll(copies);
    }
  }

  /** The conditions of the WHERE are those of the undotted entries, or of all if there are none. */
  lemma FinalIsReached(raw: seq<Entry>)
    requires Supported(raw)
    ensures Supported(Reached(raw)) && FinalOf(raw) == CompileAll(Reached(raw))
    ensures forall e :: e in Reached(raw) <==> e in raw && (Dotted(e) ==> forall e' | e' in raw :: Dotted(e'))
  {
    assert raw[..|raw|] == raw;
    ConditionsAreSources(raw, |raw|, false);
    ConditionsAreSources(raw, |raw|, true);
    SourcesAre(raw, |raw|, false);
    SourcesAre(raw, |raw|, true);
    var undotted := Sources(raw, |raw|, false);
    assert undotted != [] ==> undotted[0] in undotted;
    hide Sources, Conditions, CompileAll;
    assert forall i: nat :: i < |raw| ==> raw[i] in raw;
  }

  /** The text after WHERE. */
  function PrintAll(conditions: seq<Condition>): string {
    if conditions == [] then ""
    else if |conditions| == 1 then Print(conditions[0])
    else Print(conditions[0]) + " AND " + PrintAll(conditions[1..])
  }

  /** The condition a caller means by an entry. */
  function TermOf(e: Entry): Term
    requires OperatorOf(e).Some?
  {
    Term(e.key, OperatorOf(e).value.sql, Meant(OperatorOf(e).value.kind, CriterionOf(e)))
  }

  function TermsOf(es: seq<Entry>): (r: seq<Term>)
    requires Supported(es)
    ensures |r| == |es|
  {
    seq(|es|, i requires 0 <= i < |es| => assert es[i] in es; TermOf(es[i]))
  }

  /** What a caller can check of an entry: the key names a column and the criterion is clean. */
  predicate EntryIsClean(e: Entry) {
    OperatorOf(e).Some? && IsIdentifier(e.key) && Clean(OperatorOf(e).value.kind, CriterionOf(e))
  }

  lemma {:induction false} SymbolLengthOf(symbol: string, rest: string)
    requires (forall i :: 0 <= i < |symbol| ==> IsSymbolChar(symbol[i])) && (rest == "" || !IsSymbolChar(rest[0]))
    ensures SymbolLength(symbol + rest) == |symbol|
  {
    if symbol == "" {
      assert symbol + rest == rest;
    } else {
      assert (symbol + rest)[1..] == symbol[1..] + rest;
      SymbolLengthOf(symbol[1..], rest);
    }
  }

  lemma SymbolReads(symbol: string, rest: string)
    requires symbol in COMPARISONS && Ends(rest)
    ensures ReadOperator(symbol + rest) == Reading(symbol, rest)
  {
    assert symbol != "" && forall i :: 0 <= i < |symbol| ==> IsSymbolChar(symbol[i]);
    SymbolLengthOf(symbol, rest);
    hide ReadWord, SymbolLength, IsSymbolChar, SkipSpaces;
    assert (symbol + rest)[..|symbol|] == symbol && (symbol + rest)[|symbol|..] == rest;
  }

  lemma WordOperatorReads(word: string, rest: string)
    requires word in ["like", "between", "in"] && Ends(rest)
    ensures ReadOperator(word + rest) == Reading(word, rest)
  {
    WordReadsBack(word, rest);
    hide ReadWord;
  }

  lemma NegatedOperatorReads(word: string, rest: string)
    requires word in ["like", "in"] && Ends(rest)
    ensures ReadOperator("not " + word + rest) == Reading("not " + word, rest)
  {
    var tail := " " + (word + rest);
    assert "not " + word + rest == "not" + tail;
    WordReadsBack("not", tail);
    WordReadsBack(word, rest);
    assert word != "" && word[0] != ' ' && (word + rest)[0] == word[0];
    SpacesSkipped(word + rest);
    hide ReadWord, SkipSpaces, AllWord;
    assert SymbolLength("not" + tail) == 0;
  }

  lemma OperatorReads(op: string, rest: string)
    requires MapOperator(op).Some? && Ends(rest) && rest != ""
    ensures ReadOperator(MapOperator(op).value.sql + rest) == Reading(MapOperator(op).value.sql, rest)
  {
    SqlOperators(op);
    hide MapOperator, ReadOperator;
    SqlOperatorReads(MapOperator(op).value.sql, rest);
  }

  lemma SqlOperatorReads(sql: string, rest: string)
    requires sql in COMPARISONS || sql == "like" || sql == "not like" || sql == "between" || sql == "in" || sql == "not in"
    requires Ends(rest) && rest != ""
    ensures ReadOperator(sql + rest) == Reading(sql, rest)
  {
    hide ReadOperator, Ends;
    if sql in COMPARISONS {
      SymbolReads(sql, rest);
    } else if sql == "not like" || sql == "not in" {
      NegationsRead(rest);
    } else {
      WordOperatorReads(sql, rest);
    }
  }

  lemma NegationsRead(rest: string)
    requires Ends(rest) && rest != ""
    ensures ReadOperator("not like" + rest) == Reading("not like", rest)
    ensures ReadOperator("not in" + rest) == Reading("not in", rest)
  {
    hide ReadOperator, Ends;
    NegatedOperatorReads("like", rest);
    NegatedOperatorReads("in", rest);
    assert "not " + "like" == "not like" && "not " + "in" == "not in";
  }

  lemma SqlOperators(op: string)
    requires MapOperator(op).Some?
    ensures var sql := MapOperator(op).value.sql;
      sql in COMPARISONS || sql == "like" || sql == "not like" || sql == "between" || sql == "in" || sql == "not in"
  {
  }

  lemma CriteriaStart(kind: Kind, criterion: string)
    requires Clean(kind, criterion)
    ensures MapCriteria(kind, criterion) != "" && MapCriteria(kind, criterion)[0] != ' '
  {
    hide Split, IsNumber;
    match kind
    case Number => NumberIsWord(criterion);
    case RangeKind => JoinedStartsWithQuote(Split(criterion, LIST_SEPARATOR), " and ");
    case StringKind =>
    case General =>
    case ArrayKind =>
  }

  lemma ConditionReads(e: Entry, rest: string)
    requires EntryIsClean(e) && Ends(rest)
    ensures ReadCondition(Print(Compile(e)) + rest) == Reading(TermOf(e), rest)
  {
    PrintKeepsTheKey(e);
    var m := OperatorOf(e).value;
    var criteria := MapCriteria(m.kind, CriterionOf(e));
    OperatorReads(e.ops[0].0, " " + (criteria + rest));
    CleanReadsBack(e.ops[0].0, CriterionOf(e), rest);
    CriteriaStart(m.kind, CriterionOf(e));
    var afterKey := " " + (m.sql + (" " + (criteria + rest)));
    WordReadsBack(e.key, afterKey);
    SqlStarts(e.ops[0].0);
    Assemble(e.key, m.sql, criteria, rest);
    assert afterKey[1..] == m.sql + (" " + (criteria + rest));
    assert SkipSpaces(afterKey) == m.sql + (" " + (criteria + rest));
    assert (" " + (criteria + rest))[1..] == criteria + rest;
    assert SkipSpaces(" " + (criteria + rest)) == criteria + rest;
    hide MapOperator, MapCriteria, ReadWord, ReadOperator, ReadOperands, SkipSpaces, IsIdentifier, Meant, Clean;
  }

  lemma SqlStarts(op: string)
    requires MapOperator(op).Some?
    ensures MapOperator(op).value.sql != "" && MapOperator(op).value.sql[0] != ' '
  {
  }

  lemma Assemble(key: string, sql: string, criteria: string, rest: string)
    ensures key + " " + sql + " " + criteria + rest == key + (" " + (sql + (" " + (criteria + rest))))
  {
  }

  /** A clean condition before a clean conjunction. */
  lemma OneConditionMore(e: Entry, tail: string, terms: seq<Term>)
    requires OperatorOf(e).Some? && EntryIsClean(e) && tail != "" && tail[0] != ' ' && ReadWhere(tail) == Some([terms])
    ensures ReadWhere(Print(Compile(e)) + " AND " + tail) == Some([[TermOf(e)] + terms])
  {
    hide EntryIsClean, Compile, TermOf, OperatorOf, Print, ReadCondition, ReadWhere;
    var text := Print(Compile(e));
    ConditionReads(e, " AND " + tail);
    assert " " + "AND" + " " + tail == " AND " + tail;
    assert text + " AND " + tail == text + (" AND " + tail);
    WhereGoesOn(text + " AND " + tail, TermOf(e), "AND", tail);
    assert [terms][1..] == [] && [[TermOf(e)] + terms] + [] == [[TermOf(e)] + terms];
  }

  /** A clean condition before something else that can be read. */
  lemma OneAlternativeMore(e: Entry, tail: string, more: seq<seq<Term>>)
    requires OperatorOf(e).Some? && EntryIsClean(e) && tail != "" && tail[0] != ' ' && more != [] && ReadWhere(tail) == Some(more)
    ensures ReadWhere(Print(Compile(e)) + " or " + tail) == Some([[TermOf(e)]] + more)
  {
    hide EntryIsClean, Compile, TermOf, OperatorOf, Print, ReadCondition, ReadWhere;
    var text := Print(Compile(e));
    ConditionReads(e, " or " + tail);
    assert " " + "or" + " " + tail == " or " + tail;
    assert text + " or " + tail == text + (" or " + tail);
    WhereGoesOn(text + " or " + tail, TermOf(e), "or", tail);
  }

  lemma LastCondition(e: Entry)
    requires OperatorOf(e).Some? && EntryIsClean(e)
    ensures ReadWhere(Print(Compile(e))) == Some([[TermOf(e)]])
  {
    hide EntryIsClean, Compile, TermOf, OperatorOf, Print, ReadCondition, ReadWhere;
    ConditionReads(e, "");
    assert Print(Compile(e)) + "" == Print(Compile(e));
    WhereEnds(Print(Compile(e)), TermOf(e));
  }

  /** The lists of conditions and of terms, one entry at a time. */
  lemma HeadAndTail(es: seq<Entry>)
    requires es != [] && Supported(es)
    ensures Supported(es[1..]) && CompileAll(es) == [Compile(es[0])] + CompileAll(es[1..]) && TermsOf(es) == [TermOf(es[0])] + TermsOf(es[1..])
  {
    assert es[0] in es && forall e <- es[1..] :: e in es;
    hide OperatorOf, Compile, TermOf;
    assert Supported(es[1..]);
    TermsOneByOne(es);
    hide TermsOf;
    var conditions := CompileAll(es);
    forall i | 0 <= i < |es| ensures conditions[i] == ([Compile(es[0])] + CompileAll(es[1..]))[i] {
      if i > 0 { assert es[1..][i - 1] == es[i]; }
    }
  }

  lemma TermsOneByOne(es: seq<Entry>)
    requires es != [] && Supported(es) && Supported(es[1..])
    ensures TermsOf(es) == [TermOf(es[0])] + TermsOf(es[1..])
  {
    hide OperatorOf, TermOf;
    var terms := TermsOf(es);
    forall i | 0 <= i < |es| ensures terms[i] == ([TermOf(es[0])] + TermsOf(es[1..]))[i] {
      if i > 0 { assert es[1..][i - 1] == es[i]; }
    }
  }

  lemma AllCleanAreSupported(es: seq<Entry>)
    requires forall e | e in es :: EntryIsClean(e)
    ensures Supported(es)
  {
    hide OperatorOf, Clean, IsIdentifier;
    forall e | e in es ensures OperatorOf(e).Some? { assert EntryIsClean(e); }
  }

  lemma PrintedOneByOne(c: Condition, cs: seq<Condition>)
    ensures PrintAll([c]) == Print(c)
    ensures cs != [] ==> PrintAll([c] + cs) == Print(c) + " AND " + PrintAll(cs)
  {
    assert ([c] + cs)[1..] == cs;
  }

  /** Clean entries are read as the one conjunction they are meant to be. */
  lemma {:induction false} CleanWhereReads(es: seq<Entry>)
    requires es != [] && forall e | e in es :: EntryIsClean(e)
    ensures Supported(es) && ReadWhere(PrintAll(CompileAll(es))) == Some([TermsOf(es)])
    decreases |es|
  {
    var e := es[0];
    assert e in es && forall e' | e' in es[1..] :: e' in es;
    AllCleanAreSupported(es);
    HeadAndTail(es);
    PrintedOneByOne(Compile(e), CompileAll(es[1..]));
    hide EntryIsClean, Compile, TermOf, OperatorOf, Print, PrintAll, ReadWhere, CompileAll, TermsOf;
    if |es| == 1 {
      assert es[1..] == [] && CompileAll(es) == [Compile(e)] && TermsOf(es) == [TermOf(e)];
      LastCondition(e);
    } else {
      CleanWhereReads(es[1..]);
      FirstPrinted(es[1..]);
      OneConditionMore(e, PrintAll(CompileAll(es[1..])), TermsOf(es[1..]));
    }
  }

  lemma FirstPrinted(es: seq<Entry>)
    requires es != [] && forall e | e in es :: EntryIsClean(e)
    ensures Supported(es) && var text := PrintAll(CompileAll(es)); text != "" && text[0] != ' '
  {
    assert es[0] in es;
    PrintKeepsTheKey(es[0]);
    assert Print(Compile(es[0]))[0] == es[0].key[0];
    hide Print, Compile, MapOperator, Clean;
  }

  /** How many quotes the criteria of the entries hold that are printed between quotes. */
  function InnerQuotes(es: seq<Entry>): nat
    requires Supported(es)
  {
    if es == [] then 0
    else
      assert es[0] in es;
      (if OperatorOf(es[0]).value.kind.Number? then 0 else Quotes(CriterionOf(es[0]))) + InnerQuotes(es[1..])
  }

  lemma ConditionWeight(e: Entry)
    requires OperatorOf(e).Some? && WellFormed(TermOf(e))
    ensures Quotes(Print(Compile(e))) + (if OperatorOf(e).value.kind.Number? then 0 else Quotes(CriterionOf(e)))
         == WeightOf(TermOf(e).operands)
  {
    var m := OperatorOf(e).value;
    var criteria := MapCriteria(m.kind, CriterionOf(e));
    PrintKeepsTheKey(e);
    PrintedWeight(m.kind, CriterionOf(e));
    WordHasNoQuotes(e.key);
    SqlHasNoQuotes(e.ops[0].0);
    OneCharacter(' ');
    QuotesAdd(e.key, " ");
    QuotesAdd(e.key + " ", m.sql);
    QuotesAdd(e.key + " " + m.sql, " ");
    QuotesAdd(e.key + " " + m.sql + " ", criteria);
    if m.kind.Number? {
      assert NumberLit(CriterionOf(e)) in TermOf(e).operands;
      NumberIsWord(CriterionOf(e));
      WordHasNoQuotes(CriterionOf(e));
    }
    hide Quotes, WeightOf, MapOperator, MapCriteria, Print, Meant;
  }

  lemma SqlHasNoQuotes(op: string)
    requires MapOperator(op).Some?
    ensures Quotes(MapOperator(op).value.sql) == 0
  {
    hide Quotes;
    assert QUOTE !in MapOperator(op).value.sql;
  }

  lemma {:induction false} PrintedQuotes(es: seq<Entry>)
    requires Supported(es) && forall e | e in es :: WellFormed(TermOf(e))
    ensures Quotes(PrintAll(CompileAll(es))) + InnerQuotes(es) == WeightOfTerms(TermsOf(es))
    decreases |es|
  {
    hide Quotes, WeightOf, Print, Compile, TermOf, OperatorOf, WellFormed;
    if es == [] {
      NoQuotesInNothing();
    } else {
      var e := es[0];
      assert e in es && forall e' | e' in es[1..] :: e' in es;
      HeadAndTail(es);
      hide CompileAll, TermsOf;
      ConditionWeight(e);
      PrintedQuotes(es[1..]);
      var text, tail := Print(Compile(e)), PrintAll(CompileAll(es[1..]));
      if |es| == 1 {
        NoQuotesInNothing();
        assert es[1..] == [];
      } else {
        QuotesAdd(text + " AND ", tail);
        QuotesAdd(text, " AND ");
        WordsBetween();
      }
    }
  }

  lemma WordsBetween()
    ensures Quotes(" AND ") == 0
  {
  }

  lemma {:induction false} NoInnerQuotes(es: seq<Entry>, e: Entry)
    requires Supported(es) && InnerQuotes(es) == 0 && e in es
    ensures OperatorOf(e).value.kind.Number? || QUOTE !in CriterionOf(e)
  {
    hide OperatorOf, CriterionOf;
    if e != es[0] { NoInnerQuotes(es[1..], e); }
  }

  /** The WHERE that is printed for some entries is read as the conjunction of what they mean iff every
      one of them is clean. A quote, a bare criterion that is no number or a key that is no column
      regroups the WHERE, or makes it unreadable, or changes what is compared. */
  lemma WhereIsKeptIffClean(es: seq<Entry>)
    requires es != [] && Supported(es)
    ensures ReadWhere(PrintAll(CompileAll(es))) == Some([TermsOf(es)]) <==> forall e | e in es :: EntryIsClean(e)
  {
    var text, terms := PrintAll(CompileAll(es)), TermsOf(es);
    if forall e | e in es :: EntryIsClean(e) {
      CleanWhereReads(es);
    } else if ReadWhere(text) == Some([terms]) {
      WhereIsFormed(text);
      WhereQuotes(text);
      Weights(terms, []);
      hide ReadWhere, PrintAll, WeightOfAll, WeightOfTerms, Clean, WellFormed, IsIdentifier, Meant;
      forall e | e in es ensures WellFormed(TermOf(e)) {
        var i :| 0 <= i < |es| && es[i] == e;
        assert terms in [terms] && terms[i] == TermOf(e) && terms[i] in terms;
      }
      PrintedQuotes(es);
      assert [terms] + [] == [terms];
      forall e | e in es ensures EntryIsClean(e) {
        NoInnerQuotes(es, e);
        FormedIsClean(e);
      }
    }
  }

  lemma FormedIsClean(e: Entry)
    requires OperatorOf(e).Some? && WellFormed(TermOf(e))
    requires OperatorOf(e).value.kind.Number? || QUOTE !in CriterionOf(e)
    ensures EntryIsClean(e)
  {
    KindsFollowOperators(e.ops[0].0);
    ReadableIsClean(OperatorOf(e).value.kind, CriterionOf(e));
    hide Clean, Meant, MapOperator, IsIdentifier;
  }

  // ----- What a row is asked -----

  /** The comparisons of the database's column type. */
  datatype Database = Database(same: (string, string) -> bool, less: (string, string) -> bool, like: (string, string) -> bool)

  /** The columns of a row; a column may be NULL. */
  type Row = string -> Option<string>

  predicate AtMost(db: Database, a: string, b: string) { db.less(a, b) || db.same(a, b) }

  function ValueOf(l: Literal): string { if l.StringLit? then l.value else l.text }

  function ValuesOf(ls: seq<Literal>): (r: seq<string>)
    ensures |r| == |ls|
  {
    if ls == [] then [] else [ValueOf(ls[0])] + ValuesOf(ls[1..])
  }

  /** SQL: whether a value passes an operator with these operands. */
  predicate Passes(db: Database, sql: string, value: string, operands: seq<string>)
    requires operands != [] && (sql == "between" ==> |operands| == 2)
  {
    match sql
    case "=" => db.same(value, operands[0])
    case "<>" => !db.same(value, operands[0])
    case "<" => db.less(value, operands[0])
    case "<=" => AtMost(db, value, operands[0])
    case ">" => db.less(operands[0], value)
    case ">=" => AtMost(db, operands[0], value)
    case "like" => db.like(value, operands[0])
    case "not like" => !db.like(value, operands[0])
    case "between" => AtMost(db, operands[0], value) && AtMost(db, value, operands[1])
    case "in" => exists o | o in operands :: db.same(value, o)
    case "not in" => forall o | o in operands :: !db.same(value, o)
    case _ => false
  }

  /** SQL: a condition accepts a row when its column holds a value that passes; NULL passes nothing. */
  predicate Accepts(db: Database, row: Row, t: Term) {
    && t.operands != [] && (t.operator == "between" ==> |t.operands| == 2)
    && row(t.field).Some? && Passes(db, t.operator, row(t.field).value, ValuesOf(t.operands))
  }

  predicate AcceptsAll(db: Database, row: Row, ts: seq<Term>) { forall t | t in ts :: Accepts(db, row, t) }

  /** SQL: a WHERE accepts a row when one of its alternatives does; without a WHERE every row is accepted. */
  predicate WhereAccepts(db: Database, row: Row, conditions: seq<Condition>) {
    conditions == [] ||
      var alternatives := ReadWhere(PrintAll(conditions));
      alternatives.Some? && exists ts | ts in alternatives.value :: AcceptsAll(db, row, ts)
  }

  /** The API: what the caller asks of a row with one key, operator and criterion. */
  predicate Meets(db: Database, row: Row, key: string, op: string, criterion: string) {
    && row(key).Some?
    && var value := row(key).value;
       match op
       case "is" => db.same(value, criterion)
       case "!is" => !db.same(value, criterion)
       case "like" => db.like(value, criterion)
       case "!like" => !db.like(value, criterion)
       case "gt" => db.less(criterion, value)
       case "gte" => db.less(criterion, value) || db.same(criterion, value)
       case "lt" => db.less(value, criterion)
       case "lte" => db.less(value, criterion) || db.same(value, criterion)
       case "between" =>
         var pieces := Split(criterion, LIST_SEPARATOR);
         |pieces| == 2 && AtMost(db, pieces[0], value) && AtMost(db, value, pieces[1])
       case "in" => exists p | p in Split(criterion, LIST_SEPARATOR) :: db.same(value, p)
       case "!in" => forall p | p in Split(criterion, LIST_SEPARATOR) :: !db.same(value, p)
       case _ => false
  }

  predicate MeetsEntry(db: Database, row: Row, e: Entry) {
    e.ops != [] && Meets(db, row, e.key, e.ops[0].0, e.ops[0].1)
  }

  lemma {:induction false} ValuesOfStrings(pieces: seq<string>)
    ensures ValuesOf(StringLits(pieces)) == pieces
  {
    if pieces != [] {
      ValuesOfStrings(pieces[1..]);
      assert StringLits(pieces)[1..] == StringLits(pieces[1..]);
      assert pieces == [pieces[0]] + pieces[1..];
    }
  }

  /** The texts that the operands of a criterion stand for. */
  lemma MeantValues(kind: Kind, criterion: string)
    ensures ValuesOf(Meant(kind, criterion)) ==
      if kind.RangeKind? || kind.ArrayKind? then Split(criterion, LIST_SEPARATOR) else [criterion]
  {
    ValuesOfStrings(Split(criterion, LIST_SEPARATOR));
    hide StringLits, Split;
    var m := Meant(kind, criterion);
    if !kind.RangeKind? && !kind.ArrayKind? { assert m[1..] == []; }
  }

  /** The operator table is right: a value passes the SQL operator iff the row meets the API's one. */
  lemma TableIsRight(db: Database, row: Row, key: string, op: string, criterion: string)
    requires MapOperator(op).Some? && row(key).Some?
    requires Clean(MapOperator(op).value.kind, criterion)
    ensures
      var m := MapOperator(op).value;
      var operands := ValuesOf(Meant(m.kind, criterion));
      && operands != [] && (m.sql == "between" ==> |operands| == 2)
      && (Passes(db, m.sql, row(key).value, operands) <==> Meets(db, row, key, op, criterion))
  {
    MeantValues(MapOperator(op).value.kind, criterion);
    hide Split, IsNumber, Meant, ValuesOf;
  }

  /** What a clean entry means to SQL is what it means to the API. */
  lemma CompiledEntryIsMet(db: Database, row: Row, e: Entry)
    requires EntryIsClean(e)
    ensures Accepts(db, row, TermOf(e)) <==> MeetsEntry(db, row, e)
  {
    hide MapOperator, Passes, Clean, Split, MapCriteria, Meant, ValuesOf, IsIdentifier;
    if row(e.key).Some? {
      TableIsRight(db, row, e.key, e.ops[0].0, e.ops[0].1);
    }
  }

  lemma CleanTermsMean(db: Database, row: Row, es: seq<Entry>)
    requires Supported(es) && forall e | e in es :: EntryIsClean(e)
    ensures AcceptsAll(db, row, TermsOf(es)) <==> forall e | e in es :: MeetsEntry(db, row, e)
  {
    hide EntryIsClean, Accepts, MeetsEntry, OperatorOf, TermOf;
    var terms := TermsOf(es);
    forall e | e in es ensures TermOf(e) in terms && (Accepts(db, row, TermOf(e)) <==> MeetsEntry(db, row, e)) {
      CompiledEntryIsMet(db, row, e);
      var i :| 0 <= i < |es| && es[i] == e;
      assert terms[i] == TermOf(e);
    }
    forall t | t in terms ensures exists e | e in es :: t == TermOf(e) {
      var i :| 0 <= i < |terms| && terms[i] == t;
      assert es[i] in es && t == TermOf(es[i]);
    }
  }

  /** The WHERE of clean entries accepts a row iff the row meets every one of them. */
  lemma CleanWhereMeans(db: Database, row: Row, es: seq<Entry>)
    requires forall e | e in es :: EntryIsClean(e)
    ensures Supported(es)
    ensures WhereAccepts(db, row, CompileAll(es)) <==> forall e | e in es :: MeetsEntry(db, row, e)
  {
    hide EntryIsClean, MeetsEntry, ReadWhere, PrintAll, AcceptsAll, TermsOf;
    AllCleanAreSupported(es);
    hide OperatorOf, Supported;
    if es != [] {
      CleanWhereReads(es);
      CleanTermsMean(db, row, es);
      assert TermsOf(es) in [TermsOf(es)];
    }
  }

  /** The WHERE accepts a row iff the row meets every operator and criterion of the filter. */
  lemma WhereMeansTheFilter(db: Database, row: Row, raw: seq<Entry>)
    requires !Mixed(raw) && forall e | e in raw :: EntryIsClean(e)
    ensures Supported(raw)
    ensures WhereAccepts(db, row, FinalOf(raw)) <==> forall e | e in raw :: MeetsEntry(db, row, e)
  {
    FinalIsReached(raw);
    hide EntryIsClean, MeetsEntry, WhereAccepts, Reached, FinalOf, Dotted;
    CleanWhereMeans(db, row, Reached(raw));
    assert forall e :: e in Reached(raw) <==> e in raw by { hide CompileAll; }
  }

  // ----- The caller's own grants -----

  predicate DistinctKeys(raw: seq<Entry>) { forall i, j | 0 <= i < j < |raw| :: raw[i].key != raw[j].key }

  function Forced(key: string, caller: string): Entry { Entry(key, [("is", caller)]) }

  /** The object spread that forces `key` to be the caller: in place of the query's own entry
      for it, or after the others. */
  function WithForced(raw: seq<Entry>, key: string, caller: string): seq<Entry> {
    if raw == [] then [Forced(key, caller)]
    else if raw[0].key == key then [Forced(key, caller)] + raw[1..]
    else [raw[0]] + WithForced(raw[1..], key, caller)
  }

  /** Forcing drops what the query says about the key and keeps everything else. */
  lemma {:induction false} ForcedReplaces(raw: seq<Entry>, key: string, caller: string, e: Entry)
    requires DistinctKeys(raw)
    ensures e in WithForced(raw, key, caller) <==> e == Forced(key, caller) || (e in raw && e.key != key)
  {
    if raw != [] {
      assert raw == [raw[0]] + raw[1..];
      if raw[0].key == key {
        assert forall e' | e' in raw[1..] :: e'.key != key;
      } else {
        ForcedReplaces(raw[1..], key, caller, e);
      }
    }
  }

  lemma ForcedEntry(db: Database, row: Row, key: string, caller: string)
    requires IsIdentifier(key) && QUOTE !in caller
    ensures EntryIsClean(Forced(key, caller))
    ensures MeetsEntry(db, row, Forced(key, caller)) <==> row(key).Some? && db.same(row(key).value, caller)
  {
    hide IsIdentifier;
  }

  /** Every row of the answer has the caller in the forced column, as long as the query's other undotted
      entries are clean; what its dotted entries hold does not matter. */
  lemma OnlyTheCallersRows(db: Database, row: Row, raw: seq<Entry>, key: string, caller: string)
    requires DistinctKeys(raw) && Supported(WithForced(raw, key, caller))
    requires IsIdentifier(key) && '.' !in key && QUOTE !in caller
    requires forall e | e in raw && e.key != key && !Dotted(e) :: EntryIsClean(e)
    requires WhereAccepts(db, row, FinalOf(WithForced(raw, key, caller)))
    ensures row(key).Some? && db.same(row(key).value, caller)
  {
    var forced, entries := Forced(key, caller), WithForced(raw, key, caller);
    ForcedEntry(db, row, key, caller);
    FinalIsReached(entries);
    hide IsIdentifier, EntryIsClean, MeetsEntry, WhereAccepts, Reached, FinalOf, WithForced, CompileAll;
    forall e ensures e in entries <==> e == forced || (e in raw && e.key != key) {
      ForcedReplaces(raw, key, caller, e);
    }
    assert forced in entries && !Dotted(forced) && forced in Reached(entries);
    forall e | e in Reached(entries) ensures EntryIsClean(e) { }
    CleanWhereMeans(db, row, Reached(entries));
  }

  lemma ForcedKeysAreColumns()
    ensures IsIdentifier("owner_id") && IsIdentifier("recipient_id") && '.' !in "owner_id" && '.' !in "recipient_id"
  {
  }

  /** The two keys that the controllers force are columns, so the two lists hold the caller's rows only. */
  lemma OwnAndReceivedRowsOnly(db: Database, row: Row, raw: seq<Entry>, key: string, caller: string)
    requires key == "owner_id" || key == "recipient_id"
    requires DistinctKeys(raw) && Supported(WithForced(raw, key, caller)) && QUOTE !in caller
    requires forall e | e in raw && e.key != key && !Dotted(e) :: EntryIsClean(e)
    requires WhereAccepts(db, row, FinalOf(WithForced(raw, key, caller)))
    ensures row(key).Some? && db.same(row(key).value, caller)
  {
    hide IsIdentifier, EntryIsClean, WhereAccepts, FinalOf, WithForced, Supported, DistinctKeys;
    ForcedKeysAreColumns();
    OnlyTheCallersRows(db, row, raw, key, caller);
  }

  /** The rows of a request that does not mix keys: the caller's, out of those the query's
      other keys accept. */
  lemma CallersRowsThatMeetTheFilter(db: Database, row: Row, raw: seq<Entry>, key: string, caller: string)
    requires DistinctKeys(raw) && IsIdentifier(key) && '.' !in key && QUOTE !in caller
    requires forall e | e in raw && e.key != key :: EntryIsClean(e) && !Dotted(e)
    ensures Supported(WithForced(raw, key, caller))
    ensures WhereAccepts(db, row, FinalOf(WithForced(raw, key, caller))) <==>
            && row(key).Some? && db.same(row(key).value, caller)
            && forall e | e in raw && e.key != key :: MeetsEntry(db, row, e)
  {
    var forced := Forced(key, caller);
    ForcedEntry(db, row, key, caller);
    hide MeetsEntry, EntryIsClean, FinalOf, WhereAccepts, WithForced, IsIdentifier;
    var entries := WithForced(raw, key, caller);
    forall e
      ensures e in entries <==> e == forced || (e in raw && e.key != key)
    {
      ForcedReplaces(raw, key, caller, e);
    }
    WhereMeansTheFilter(db, row, entries);
  }

  /** The WHERE of a request is read as the conjunction of what its undotted entries mean iff the query's
      other undotted entries are clean. */
  lemma ForcedWhereIsKeptIff(raw: seq<Entry>, key: string, caller: string)
    requires DistinctKeys(raw) && Supported(WithForced(raw, key, caller))
    requires IsIdentifier(key) && '.' !in key && QUOTE !in caller
    ensures Supported(Reached(WithForced(raw, key, caller)))
    ensures ReadWhere(PrintAll(FinalOf(WithForced(raw, key, caller)))) == Some([TermsOf(Reached(WithForced(raw, key, caller)))])
       <==> forall e | e in raw && e.key != key && !Dotted(e) :: EntryIsClean(e)
  {
    var forced, entries := Forced(key, caller), WithForced(raw, key, caller);
    assert EntryIsClean(forced);
    FinalIsReached(entries);
    hide EntryIsClean, Reached, FinalOf, WithForced, CompileAll, TermsOf, ReadWhere, PrintAll, IsIdentifier;
    forall e ensures e in entries <==> e == forced || (e in raw && e.key != key) {
      ForcedReplaces(raw, key, caller, e);
    }
    assert forced in entries && !Dotted(forced) && forced in Reached(entries);
    WhereIsKeptIffClean(Reached(entries));
    assert forall e :: e in Reached(entries) <==> e == forced || (e in raw && e.key != key && !Dotted(e));
  }

  // ----- Where it fails -----

  lemma IdentifierIsOneField(key: string)
    requires IsIdentifier(key)
    ensures Split(key, COMMA) == [key]
  {
    forall i: nat | i < |key|
      ensures !OccursAt(key, COMMA, i)
    {
      assert IsWordChar(key[i]);
      assert key[i..i + 1][0] == key[i];
    }
    assert FirstAt(key, COMMA, 0).None?;
  }

  lemma ReachedTwo(e: Entry, z: Entry)
    requires IsIdentifier(e.key) && IsIdentifier(z.key) && !Dotted(e) && !Dotted(z)
    ensures Reached([e, z]) == [e, z]
  {
    IdentifierIsOneField(e.key);
    IdentifierIsOneField(z.key);
    hide Split, IsIdentifier;
    var raw := [e, z];
    assert seq(1, _ => e) == [e] && seq(1, _ => z) == [z];
    assert Sources(raw, 0, false) == [];
    assert Sources(raw, 1, false) == [] + [e];
    assert Sources(raw, 2, false) == [e] + [z];
  }

  /** Two conditions under plain keys are printed one after the other. */
  lemma TwoPrinted(e: Entry, z: Entry)
    requires IsIdentifier(e.key) && IsIdentifier(z.key) && !Dotted(e) && !Dotted(z)
    requires OperatorOf(e).Some? && OperatorOf(z).Some?
    ensures Supported([e, z]) && PrintAll(FinalOf([e, z])) == Print(Compile(e)) + " AND " + Print(Compile(z))
  {
    ReachedTwo(e, z);
    hide IsIdentifier, OperatorOf, Compile, Reached, Print;
    assert forall e' <- [e, z] :: OperatorOf(e').Some?;
    FinalIsReached([e, z]);
    HeadAndTail([e, z]);
    HeadAndTail([z]);
    hide FinalOf, CompileAll, TermsOf, PrintAll;
    assert [e, z][1..] == [z] && [z][1..] == [];
    NothingIsCompiled();
    PrintedOneByOne(Compile(z), []);
    PrintedOneByOne(Compile(e), [Compile(z)]);
  }

  lemma NothingIsCompiled()
    ensures CompileAll([]) == []
  {
  }

  /** A criterion that closes its own quotes: what follows them reads as another alternative. */
  function Regrouping(field: string, a: string, b: string): string { a + Quoted(" or " + field + " = ") + b }

  lemma QuotesClose(a: string, between: string, b: string)
    ensures Quoted(a + Quoted(between) + b) == Quoted(a) + between + Quoted(b)
  {
  }

  lemma Alternatives(x: string, or: string, y: string, and: string, z: string)
    ensures x + or + y + and + z == x + or + (y + and + z)
  {
  }

  lemma TwoComparisons(field: string, left: string, right: string)
    ensures field + " " + "=" + " " + left == field + " = " + left
    ensures field + " = " + (left + (" or " + field + " = ") + right) == field + " = " + left + " or " + (field + " = " + right)
  {
  }

  lemma RegroupedText(field: string, a: string, b: string)
    ensures Print(Compile(Entry(field, [("is", Regrouping(field, a, b))])))
         == Print(Compile(Forced(field, a))) + " or " + Print(Compile(Forced(field, b)))
    ensures QUOTE in Regrouping(field, a, b)
  {
    var e := Entry(field, [("is", Regrouping(field, a, b))]);
    assert MapOperator("is") == Some(Operator("=", General));
    PrintKeepsTheKey(e);
    PrintKeepsTheKey(Forced(field, a));
    PrintKeepsTheKey(Forced(field, b));
    assert Regrouping(field, a, b)[|a|] == QUOTE;
    QuotesClose(a, " or " + field + " = ", b);
    hide MapOperator, Compile, Print, Quoted;
    TwoComparisons(field, Quoted(a), Quoted(b));
    TwoComparisons(field, Quoted(b), Quoted(b));
    TwoComparisons(field, Quoted(Regrouping(field, a, b)), "");
  }

  lemma ForcedTerm(field: string, a: string)
    requires IsIdentifier(field) && QUOTE !in a
    ensures EntryIsClean(Forced(field, a)) && TermOf(Forced(field, a)) == Term(field, "=", [StringLit(a)])
  {
    hide IsIdentifier;
  }

  /** A filter whose criterion holds quotes can regroup the WHERE. The forced condition then belongs to the
      second alternative only, and a row that meets the first is accepted whoever the caller is. */
  lemma QuotesRegroupTheWhere(db: Database, row: Row, field: string, a: string, b: string, key: string, caller: string)
    requires IsIdentifier(field) && IsIdentifier(key) && field != key && '.' !in field && '.' !in key
    requires QUOTE !in a && QUOTE !in b && QUOTE !in caller
    requires row(field) == Some(a) && db.same(a, a)
    ensures var raw := [Entry(field, [("is", Regrouping(field, a, b))])];
      && DistinctKeys(raw) && Supported(WithForced(raw, key, caller)) && !EntryIsClean(raw[0])
      && ReadWhere(PrintAll(FinalOf(WithForced(raw, key, caller))))
         == Some([[Term(field, "=", [StringLit(a)])], [Term(field, "=", [StringLit(b)]), Term(key, "=", [StringLit(caller)])]])
      && WhereAccepts(db, row, FinalOf(WithForced(raw, key, caller)))
  {
    var e := Entry(field, [("is", Regrouping(field, a, b))]);
    var x, y, z := Forced(field, a), Forced(field, b), Forced(key, caller);
    assert [e][1..] == [] && WithForced([e], key, caller) == [e, z];
    RegroupedText(field, a, b);
    assert OperatorOf(e) == OperatorOf(x) && !EntryIsClean(e) by { hide Regrouping, IsIdentifier; }
    assert Accepts(db, row, Term(field, "=", [StringLit(a)])) by { ValuesOfStrings([a]); }
    ForcedTerm(field, a);
    ForcedTerm(field, b);
    ForcedTerm(key, caller);
    TwoPrinted(e, z);
    hide *;
    RegroupedReads(e, x, y, z);
    AlternativeAccepts(db, row, FinalOf([e, z]), [TermOf(x)]);
  }

  lemma RegroupedReads(e: Entry, x: Entry, y: Entry, z: Entry)
    requires OperatorOf(x).Some? && OperatorOf(y).Some? && OperatorOf(z).Some? && OperatorOf(e).Some?
    requires EntryIsClean(x) && EntryIsClean(y) && EntryIsClean(z)
    requires Print(Compile(e)) == Print(Compile(x)) + " or " + Print(Compile(y))
    ensures ReadWhere(Print(Compile(e)) + " AND " + Print(Compile(z))) == Some([[TermOf(x)], [TermOf(y), TermOf(z)]])
  {
    StartsWithKey(y);
    StartsWithKey(z);
    hide *;
    var tail := Print(Compile(y)) + " AND " + Print(Compile(z));
    LastCondition(z);
    OneConditionMore(y, Print(Compile(z)), [TermOf(z)]);
    assert tail[0] == Print(Compile(y))[0];
    OneAlternativeMore(x, tail, [[TermOf(y)] + [TermOf(z)]]);
    assert [TermOf(y)] + [TermOf(z)] == [TermOf(y), TermOf(z)];
    Alternatives(Print(Compile(x)), " or ", Print(Compile(y)), " AND ", Print(Compile(z)));
    assert [[TermOf(x)]] + [[TermOf(y), TermOf(z)]] == [[TermOf(x)], [TermOf(y), TermOf(z)]];
  }

  lemma StartsWithKey(e: Entry)
    requires EntryIsClean(e)
    ensures OperatorOf(e).Some? && var text := Print(Compile(e)); text != "" && text[0] != ' '
  {
    PrintKeepsTheKey(e);
    assert Print(Compile(e))[0] == e.key[0];
    hide Print, Compile, MapOperator, Clean;
  }

  lemma AlternativeAccepts(db: Database, row: Row, conditions: seq<Condition>, ts: seq<Term>)
    requires ReadWhere(PrintAll(conditions)).Some? && ts in ReadWhere(PrintAll(conditions)).value
    requires forall t | t in ts :: Accepts(db, row, t)
    ensures WhereAccepts(db, row, conditions)
  {
    hide ReadWhere, PrintAll, Accepts;
  }

  /** `/grants/my` and `/grants/forme`: nothing is read when an operator is not supported. */
  method ListGrants(raw: Option<seq<Entry>>, key: string, caller: string) returns (builder: QueryBuilder?)
    ensures
      var entries := WithForced(if raw.Some? then raw.value else [], key, caller);
      if Supported(entries) then builder != null && fresh(builder) && builder.wheres == FinalOf(entries)
      else builder == null
  {
    var entries := WithForced(if raw.Some? then raw.value else [], key, caller);
    var built := BuildFilter(entries);
    match built
    case BadQueryParameter(_) => builder := null;
    case Built(filter, where) => builder := Query(filter, where);
  }
}
