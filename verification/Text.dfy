/** Splitting and joining texts the way JavaScript does, and reading the part of SQL that the filter
    compiler prints: literals, conditions, and conditions joined by AND and OR, of which AND binds tighter. */
module Text {
  import opened Entities

  // ----- Splitting and joining -----

  predicate OccursAt(s: string, sep: string, i: nat) { i + |sep| <= |s| && s[i..i + |sep|] == sep }

  predicate Free(s: string, sep: string) { forall i: nat | i < |s| :: !OccursAt(s, sep, i) }

  /** The first place at or after `i` where `sep` occurs. */
  function FirstAt(s: string, sep: string, i: nat): (r: Option<nat>)
    requires sep != "" && i <= |s|
    ensures r.Some? ==> i <= r.value && OccursAt(s, sep, r.value)
    ensures forall j: nat :: i <= j < (if r.Some? then r.value else |s|) ==> !OccursAt(s, sep, j)
    decreases |s| - i
  {
    if i == |s| then None
    else if OccursAt(s, sep, i) then Some(i)
    else FirstAt(s, sep, i + 1)
  }

  /** `s.split(sep)`: cuts at every occurrence, leftmost first. */
  function Split(s: string, sep: string): (pieces: seq<string>)
    requires sep != ""
    ensures pieces != []
    decreases |s|
  {
    match FirstAt(s, sep, 0)
    case None => [s]
    case Some(i) => [s[..i]] + Split(s[i + |sep|..], sep)
  }

  /** `pieces.join(sep)`. */
  function Join(pieces: seq<string>, sep: string): string {
    if pieces == [] then ""
    else if |pieces| == 1 then pieces[0]
    else pieces[0] + sep + Join(pieces[1..], sep)
  }

  lemma {:induction false} JoinUndoesSplit(s: string, sep: string)
    requires sep != ""
    ensures Join(Split(s, sep), sep) == s
    decreases |s|
  {
    match FirstAt(s, sep, 0)
    case None =>
    case Some(i) =>
      var rest := s[i + |sep|..];
      JoinUndoesSplit(rest, sep);
      var pieces := Split(s, sep);
      assert pieces[0] == s[..i] && pieces[1..] == Split(rest, sep);
      assert s == s[..i] + s[i..i + |sep|] + rest;
  }

  /** A separator that does not repeat its first character is first found where the join put it. */
  lemma FoundWhereJoined(p: string, sep: string, rest: string)
    requires sep != "" && sep[0] !in sep[1..] && Free(p, sep)
    ensures FirstAt(p + sep + rest, sep, 0) == Some(|p|)
  {
    var s := p + sep + rest;
    assert OccursAt(s, sep, |p|);
    forall j: nat | j < |p|
      ensures !OccursAt(s, sep, j)
    {
      if j + |sep| <= |p| {
        assert s[j..j + |sep|] == p[j..j + |sep|];
        assert !OccursAt(p, sep, j);
      } else {
        assert j + |sep| <= |s| ==> s[j..j + |sep|][|p| - j] == sep[0];
        assert sep[|p| - j] == sep[1..][|p| - j - 1];
      }
    }
  }

  /** Together with the lemma above: splitting finds exactly the pieces that were joined. */
  lemma {:induction false} SplitUndoesJoin(pieces: seq<string>, sep: string)
    requires sep != "" && sep[0] !in sep[1..] && pieces != []
    requires forall p | p in pieces :: Free(p, sep)
    ensures Split(Join(pieces, sep), sep) == pieces
  {
    if |pieces| == 1 {
      var p := pieces[0];
      assert p in pieces && Free(p, sep);
      assert pieces == [p];
    } else {
      var rest := Join(pieces[1..], sep);
      var s := Join(pieces, sep);
      FoundWhereJoined(pieces[0], sep, rest);
      assert s == pieces[0] + sep + rest;
      assert s[..|pieces[0]|] == pieces[0] && s[|pieces[0]| + |sep|..] == rest;
      SplitUndoesJoin(pieces[1..], sep);
    }
  }

  /** No piece of a split holds the separator. */
  lemma {:induction false} PiecesAreFree(s: string, sep: string)
    requires sep != ""
    ensures forall p | p in Split(s, sep) :: Free(p, sep)
    decreases |s|
  {
    match FirstAt(s, sep, 0)
    case None =>
    case Some(i) =>
      PiecesAreFree(s[i + |sep|..], sep);
      forall j: nat | j < i
        ensures !OccursAt(s[..i], sep, j)
      {
        if j + |sep| <= i {
          assert s[j..j + |sep|] == s[..i][j..j + |sep|];
          assert !OccursAt(s, sep, j);
        }
      }
  }

  // ----- SQL literals -----

  const QUOTE: char := '\''

  function Quoted(s: string): string { [QUOTE] + s + [QUOTE] }

  function QuotedAll(pieces: seq<string>): (r: seq<string>)
    ensures |r| == |pieces|
  {
    if pieces == [] then [] else [Quoted(pieces[0])] + QuotedAll(pieces[1..])
  }

  datatype Reading<+T> = NoReading | Reading(value: T, rest: string)

  datatype Literal = StringLit(value: string) | NumberLit(text: string)

  /** The rest of a string literal whose opening quote is read: two quotes stand for one, a
      single one ends it. */
  function ReadBody(s: string): (r: Reading<string>)
    ensures r.Reading? ==> |r.rest| < |s|
  {
    if s == "" then NoReading
    else if s[0] == QUOTE then
      if |s| > 1 && s[1] == QUOTE then Prepend(QUOTE, ReadBody(s[2..])) else Reading("", s[1..])
    else Prepend(s[0], ReadBody(s[1..]))
  }

  function Prepend(c: char, r: Reading<string>): Reading<string> {
    if r.Reading? then Reading([c] + r.value, r.rest) else NoReading
  }

  function ReadQuoted(s: string): (r: Reading<string>)
    ensures r.Reading? ==> |r.rest| < |s|
  {
    if s != "" && s[0] == QUOTE then ReadBody(s[1..]) else NoReading
  }

  function SkipSpaces(s: string): (r: string)
    ensures |r| <= |s|
    ensures s == "" || s[0] != ' ' ==> r == s
  {
    if s != "" && s[0] == ' ' then SkipSpaces(s[1..]) else s
  }

  predicate IsWordChar(c: char) { 'a' <= c <= 'z' || 'A' <= c <= 'Z' || '0' <= c <= '9' || c == '_' || c == '.' }

  predicate IsSymbolChar(c: char) { c == '=' || c == '<' || c == '>' }

  predicate AllWord(s: string) { forall i :: 0 <= i < |s| ==> IsWordChar(s[i]) }

  /** The longest word that the text starts with, which may be empty. */
  function WordLength(s: string): (n: nat)
    ensures n <= |s| && AllWord(s[..n]) && (n < |s| ==> !IsWordChar(s[n]))
  {
    if s == "" || !IsWordChar(s[0]) then 0
    else
      var n := WordLength(s[1..]) + 1;
      assert AllWord(s[..n]) by { assert s[..n] == [s[0]] + s[1..][..n - 1]; }
      n
  }

  function SymbolLength(s: string): (n: nat)
    ensures n <= |s|
  {
    if s == "" || !IsSymbolChar(s[0]) then 0 else SymbolLength(s[1..]) + 1
  }

  function ReadWord(s: string): (r: Reading<string>)
    ensures r.Reading? ==> |r.rest| < |s| && r.value != "" && AllWord(r.value) && s == r.value + r.rest
  {
    var n := WordLength(s);
    if n == 0 then NoReading else Reading(s[..n], s[n..])
  }

  lemma {:induction false} WordLengthOf(w: string, rest: string)
    requires AllWord(w) && (rest == "" || !IsWordChar(rest[0]))
    ensures WordLength(w + rest) == |w|
  {
    if w == "" {
      assert w + rest == rest;
    } else {
      assert (w + rest)[1..] == w[1..] + rest;
      WordLengthOf(w[1..], rest);
    }
  }

  lemma WordReadsBack(w: string, rest: string)
    requires w != "" && AllWord(w) && (rest == "" || !IsWordChar(rest[0]))
    ensures ReadWord(w + rest) == Reading(w, rest)
  {
    WordLengthOf(w, rest);
    assert (w + rest)[..|w|] == w && (w + rest)[|w|..] == rest;
    hide AllWord;
  }

  predicate AllDigits(s: string) { forall i :: 0 <= i < |s| ==> '0' <= s[i] <= '9' }

  /** An unsigned decimal number. */
  predicate IsNumber(s: string) {
    exists i: nat | i <= |s| ::
      && i > 0 && AllDigits(s[..i])
      && (s[i..] == "" || (s[i] == '.' && AllDigits(s[i + 1..])))
  }

  /** A quoted string or a bare number. */
  function ReadScalar(s: string): (r: Reading<Literal>)
    ensures r.Reading? ==> |r.rest| < |s| && WellRead(r.value)
  {
    var quoted := ReadQuoted(s);
    var word := ReadWord(s);
    if quoted.Reading? then Reading(StringLit(quoted.value), quoted.rest)
    else if word.Reading? && IsNumber(word.value) then Reading(NumberLit(word.value), word.rest)
    else NoReading
  }

  predicate WellRead(l: Literal) { l.NumberLit? ==> IsNumber(l.text) }

  predicate AllWellRead(ls: seq<Literal>) { forall l <- ls :: WellRead(l) }

  /** `lo and hi`. */
  function ReadRange(s: string): (r: Reading<seq<Literal>>)
    ensures r.Reading? ==> |r.rest| < |s| && |r.value| == 2 && AllWellRead(r.value)
  {
    var lo := ReadScalar(s);
    if lo.NoReading? then NoReading
    else
      var word := ReadWord(SkipSpaces(lo.rest));
      if word.NoReading? || word.value != "and" then NoReading
      else
        var hi := ReadScalar(SkipSpaces(word.rest));
        if hi.Reading? then Reading([lo.value, hi.value], hi.rest) else NoReading
  }

  /** The items of a list whose opening parenthesis is read, and its closing one. */
  function ReadItems(s: string): (r: Reading<seq<Literal>>)
    ensures r.Reading? ==> |r.rest| < |s| && r.value != [] && AllWellRead(r.value)
    decreases |s|
  {
    var item := ReadScalar(s);
    if item.NoReading? then NoReading
    else
      var rest := SkipSpaces(item.rest);
      if rest == "" then NoReading
      else if rest[0] == ')' then Reading([item.value], rest[1..])
      else if rest[0] != ',' then NoReading
      else
        var items := ReadItems(SkipSpaces(rest[1..]));
        if items.Reading? then Reading([item.value] + items.value, items.rest) else NoReading
  }

  /** `(a, b, …)`. */
  function ReadList(s: string): (r: Reading<seq<Literal>>)
    ensures r.Reading? ==> |r.rest| < |s| && r.value != [] && AllWellRead(r.value)
  {
    if s != "" && s[0] == '(' then ReadItems(s[1..]) else NoReading
  }

  // ----- Conditions and their grouping -----

  /** A condition as SQL reads it. */
  datatype Term = Term(field: string, operator: string, operands: seq<Literal>)

  const COMPARISONS := ["=", "<>", ">", ">=", "<", "<="]

  /** Words that name no column. */
  predicate Reserved(s: string) { s in ["not", "and", "or", "AND", "OR", "in", "like", "between", "is", "null", "true", "false"] }

  predicate IsIdentifier(s: string) { s != "" && AllWord(s) && !('0' <= s[0] <= '9') && s[0] != '.' && !Reserved(s) }

  function ReadOperator(s: string): (r: Reading<string>)
    ensures r.Reading? ==> |r.rest| < |s|
  {
    var n := SymbolLength(s);
    if n > 0 then if s[..n] in COMPARISONS then Reading(s[..n], s[n..]) else NoReading
    else
      var word := ReadWord(s);
      if word.NoReading? then NoReading
      else if word.value in ["like", "between", "in"] then word
      else if word.value != "not" then NoReading
      else
        var next := ReadWord(SkipSpaces(word.rest));
        if next.Reading? && next.value in ["like", "in"] then Reading("not " + next.value, next.rest) else NoReading
  }

  function ReadOperands(operator: string, s: string): (r: Reading<seq<Literal>>)
    ensures r.Reading? ==> |r.rest| < |s| && r.value != [] && AllWellRead(r.value) && (operator == "between" ==> |r.value| == 2)
  {
    if operator == "in" || operator == "not in" then ReadList(s)
    else if operator == "between" then ReadRange(s)
    else
      var scalar := ReadScalar(s);
      if scalar.Reading? then Reading([scalar.value], scalar.rest) else NoReading
  }

  function ReadCondition(s: string): (r: Reading<Term>)
    ensures r.Reading? ==> |r.rest| < |s| && WellFormed(r.value)
  {
    var field := ReadWord(s);
    if field.NoReading? || !IsIdentifier(field.value) then NoReading
    else
      var operator := ReadOperator(SkipSpaces(field.rest));
      if operator.NoReading? then NoReading
      else
        var operands := ReadOperands(operator.value, SkipSpaces(operator.rest));
        if operands.NoReading? then NoReading
        else Reading(Term(field.value, operator.value, operands.value), operands.rest)
  }

  predicate WellFormed(t: Term) {
    && IsIdentifier(t.field) && t.operands != [] && AllWellRead(t.operands)
    && (t.operator == "between" ==> |t.operands| == 2)
  }

  /** The alternatives that a WHERE reads as, each a conjunction; None where it cannot be read. */
  function ReadWhere(s: string): Option<seq<seq<Term>>>
    decreases |s|
  {
    var first := ReadCondition(s);
    if first.NoReading? then None
    else
      var rest := SkipSpaces(first.rest);
      if rest == "" then Some([[first.value]])
      else
        var word := ReadWord(rest);
        if word.NoReading? then None
        else Group(first.value, word.value, ReadWhere(SkipSpaces(word.rest)))
  }

  /** A condition before what follows it: AND makes it part of the first alternative, OR one of its own. */
  function Group(t: Term, word: string, more: Option<seq<seq<Term>>>): Option<seq<seq<Term>>> {
    if more.None? || more.value == [] then None
    else if word == "AND" || word == "and" then Some([[t] + more.value[0]] + more.value[1..])
    else if word == "OR" || word == "or" then Some([[t]] + more.value)
    else None
  }

  lemma WhereEnds(s: string, t: Term)
    requires ReadCondition(s) == Reading(t, "")
    ensures ReadWhere(s) == Some([[t]])
  {
    hide ReadCondition, ReadWord;
  }

  /** A connective between two spaces. */
  lemma ConnectiveReads(word: string, tail: string)
    requires word != "" && AllWord(word) && tail != "" && tail[0] != ' '
    ensures SkipSpaces(" " + word + " " + tail) == word + (" " + tail)
    ensures ReadWord(word + (" " + tail)) == Reading(word, " " + tail) && SkipSpaces(" " + tail) == tail
  {
    var after := " " + tail;
    WordReadsBack(word, after);
    hide ReadWord;
    assert IsWordChar(word[0]);
    hide AllWord;
    SpacesSkipped(tail);
    SpacesSkipped(word + after);
    hide SkipSpaces;
    Spaced(word, tail);
  }

  lemma Spaced(word: string, tail: string)
    ensures " " + word + " " + tail == " " + (word + (" " + tail))
  {
  }

  lemma SpacesSkipped(s: string)
    requires s != "" && s[0] != ' '
    ensures SkipSpaces(" " + s) == s
  {
    assert (" " + s)[1..] == s;
  }

  /** A condition, a connective and what follows it. */
  lemma WhereGoesOn(s: string, t: Term, word: string, tail: string)
    requires ReadCondition(s) == Reading(t, " " + word + " " + tail)
    requires word != "" && AllWord(word) && tail != "" && tail[0] != ' '
    ensures ReadWhere(s) == Group(t, word, ReadWhere(tail))
  {
    ConnectiveReads(word, tail);
    hide ReadCondition, ReadWord, SkipSpaces, AllWord, Group;
    var rest := SkipSpaces(" " + word + " " + tail);
    assert rest == word + (" " + tail) && rest != "";
  }

  predicate AllFormed(alternatives: seq<seq<Term>>) { forall conj <- alternatives :: forall t <- conj :: WellFormed(t) }

  lemma GroupIsFormed(t: Term, word: string, more: Option<seq<seq<Term>>>)
    requires WellFormed(t) && (more.Some? ==> AllFormed(more.value))
    ensures var r := Group(t, word, more); r.Some? ==> r.value != [] && AllFormed(r.value)
  {
    hide WellFormed;
    var r := Group(t, word, more);
    if r.Some? {
      assert more.value[0] in more.value;
      forall conj <- r.value ensures forall u <- conj :: WellFormed(u) {
        assert conj == [t] || conj == [t] + more.value[0] || conj in more.value;
      }
    }
  }

  lemma {:induction false} WhereIsFormed(s: string)
    ensures var r := ReadWhere(s); r.Some? ==> r.value != [] && AllFormed(r.value)
    decreases |s|
  {
    hide ReadCondition, WellFormed, ReadWord, SkipSpaces;
    var first := ReadCondition(s);
    if first.Reading? && SkipSpaces(first.rest) != "" {
      var word := ReadWord(SkipSpaces(first.rest));
      if word.Reading? {
        WhereIsFormed(SkipSpaces(word.rest));
        GroupIsFormed(first.value, word.value, ReadWhere(SkipSpaces(word.rest)));
      }
    }
  }

  // ----- Counting quotes: a literal that reads back as its text had none to begin with -----

  function Quotes(s: string): (n: nat)
    ensures n == 0 <==> QUOTE !in s
  {
    if s == "" then 0 else (if s[0] == QUOTE then 1 else 0) + Quotes(s[1..])
  }

  function QuotesOf(pieces: seq<string>): nat {
    if pieces == [] then 0 else Quotes(pieces[0]) + QuotesOf(pieces[1..])
  }

  /** How many quotes a literal is printed with. */
  function Weight(l: Literal): nat {
    match l
    case StringLit(v) => 2 * Quotes(v) + 2
    case NumberLit(_) => 0
  }

  function WeightOf(ls: seq<Literal>): nat {
    if ls == [] then 0 else Weight(ls[0]) + WeightOf(ls[1..])
  }

  function WeightOfTerms(ts: seq<Term>): nat {
    if ts == [] then 0 else WeightOf(ts[0].operands) + WeightOfTerms(ts[1..])
  }

  function WeightOfAll(alternatives: seq<seq<Term>>): nat {
    if alternatives == [] then 0 else WeightOfTerms(alternatives[0]) + WeightOfAll(alternatives[1..])
  }

  lemma {:induction false} QuotesAdd(a: string, b: string)
    ensures Quotes(a + b) == Quotes(a) + Quotes(b)
  {
    if a == "" {
      assert a + b == b;
    } else {
      QuotesAdd(a[1..], b);
      assert (a + b)[1..] == a[1..] + b;
    }
  }

  lemma QuotesOfQuoted(s: string)
    ensures Quotes(Quoted(s)) == Quotes(s) + 2
  {
    QuotesAdd([QUOTE], s);
    QuotesAdd([QUOTE] + s, [QUOTE]);
    assert Quotes([QUOTE]) == 1 + Quotes([QUOTE][1..]);
  }

  lemma {:induction false} SpacesHaveNoQuotes(s: string)
    ensures Quotes(SkipSpaces(s)) == Quotes(s)
  {
    if s != "" && s[0] == ' ' {
      SpacesHaveNoQuotes(s[1..]);
    }
  }

  lemma WordHasNoQuotes(s: string)
    requires AllWord(s)
    ensures Quotes(s) == 0
  {
    assert forall i :: 0 <= i < |s| ==> s[i] != QUOTE;
  }

  lemma ReadWordQuotes(s: string)
    ensures var r := ReadWord(s); r.Reading? ==> Quotes(s) == Quotes(r.rest)
  {
    var r := ReadWord(s);
    if r.Reading? {
      WordHasNoQuotes(r.value);
      QuotesAdd(r.value, r.rest);
    }
  }

  lemma {:induction false} SymbolHasNoQuotes(s: string)
    ensures Quotes(s[SymbolLength(s)..]) == Quotes(s)
  {
    if s != "" && IsSymbolChar(s[0]) {
      SymbolHasNoQuotes(s[1..]);
      assert s[SymbolLength(s)..] == s[1..][SymbolLength(s[1..])..];
    } else {
      assert s[0..] == s;
    }
  }

  lemma {:induction false} BodyQuotes(s: string)
    ensures var r := ReadBody(s);
            r.Reading? ==> Quotes(s) == 2 * Quotes(r.value) + 1 + Quotes(r.rest)
  {
    if s != "" {
      if s[0] == QUOTE {
        if |s| > 1 && s[1] == QUOTE {
          BodyQuotes(s[2..]);
          assert s[1..][1..] == s[2..];
          PrependQuotes(QUOTE, ReadBody(s[2..]));
        }
      } else {
        BodyQuotes(s[1..]);
        PrependQuotes(s[0], ReadBody(s[1..]));
      }
    }
  }

  lemma PrependQuotes(c: char, r: Reading<string>)
    ensures r.Reading? ==> Quotes(Prepend(c, r).value) == (if c == QUOTE then 1 else 0) + Quotes(r.value)
  {
    if r.Reading? {
      assert ([c] + r.value)[1..] == r.value;
    }
  }

  lemma ScalarQuotes(s: string)
    ensures var r := ReadScalar(s); r.Reading? ==> Quotes(s) == Weight(r.value) + Quotes(r.rest)
  {
    ReadWordQuotes(s);
    if s != "" && s[0] == QUOTE {
      BodyQuotes(s[1..]);
    }
    hide ReadWord, ReadBody, IsNumber;
  }

  lemma RangeQuotes(s: string)
    ensures var r := ReadRange(s); r.Reading? ==> Quotes(s) == WeightOf(r.value) + Quotes(r.rest)
  {
    if ReadRange(s).Reading? {
      var lo := ReadScalar(s);
      var word := ReadWord(SkipSpaces(lo.rest));
      var hi := ReadScalar(SkipSpaces(word.rest));
      hide ReadScalar, ReadWord, SkipSpaces, Quotes, Weight;
      ScalarQuotes(s);
      SpacesHaveNoQuotes(lo.rest);
      ReadWordQuotes(SkipSpaces(lo.rest));
      SpacesHaveNoQuotes(word.rest);
      ScalarQuotes(SkipSpaces(word.rest));
      WeightOfTwo(lo.value, hi.value);
    }
  }

  lemma WeightOfTwo(a: Literal, b: Literal)
    ensures WeightOf([a, b]) == Weight(a) + Weight(b) && WeightOf([a]) == Weight(a)
  {
    assert [a, b][1..] == [b] && [b][1..] == [] && [a][1..] == [];
    assert WeightOf([b]) == Weight(b) + WeightOf([]);
  }

  lemma FirstIsNoQuote(s: string)
    requires s != "" && s[0] != QUOTE
    ensures Quotes(s) == Quotes(s[1..])
  {
  }

  /** How a list goes on after one of its items. */
  lemma ItemsAfter(s: string)
    requires ReadScalar(s).Reading?
    ensures var item := ReadScalar(s);
      var rest := SkipSpaces(item.rest);
      if rest != "" && rest[0] == ')' then ReadItems(s) == Reading([item.value], rest[1..])
      else if rest != "" && rest[0] == ',' then
        var items := ReadItems(SkipSpaces(rest[1..]));
        ReadItems(s) == if items.Reading? then Reading([item.value] + items.value, items.rest) else NoReading
      else ReadItems(s) == NoReading
  {
    hide ReadScalar, SkipSpaces;
  }

  lemma {:induction false} ItemsQuotes(s: string)
    ensures var r := ReadItems(s); r.Reading? ==> Quotes(s) == WeightOf(r.value) + Quotes(r.rest)
    decreases |s|
  {
    var item := ReadScalar(s);
    ScalarQuotes(s);
    if item.Reading? {
      ItemsAfter(s);
      hide ReadScalar, ReadItems, Weight, SkipSpaces, WeightOf, Quotes;
      var rest := SkipSpaces(item.rest);
      SpacesHaveNoQuotes(item.rest);
      if rest != "" && rest[0] == ')' {
        FirstIsNoQuote(rest);
        WeightOfTwo(item.value, item.value);
      } else if rest != "" && rest[0] == ',' {
        FirstIsNoQuote(rest);
        var next := SkipSpaces(rest[1..]);
        SpacesHaveNoQuotes(rest[1..]);
        ItemsQuotes(next);
        if ReadItems(next).Reading? { WeightOfMore(item.value, ReadItems(next).value); }
      }
    } else {
      assert ReadItems(s) == NoReading;
    }
  }

  lemma WeightOfMore(l: Literal, ls: seq<Literal>)
    ensures WeightOf([l] + ls) == Weight(l) + WeightOf(ls)
  {
    assert ([l] + ls)[1..] == ls;
  }

  lemma OperandsQuotes(operator: string, s: string)
    ensures var r := ReadOperands(operator, s); r.Reading? ==> Quotes(s) == WeightOf(r.value) + Quotes(r.rest)
  {
    hide ReadScalar, ReadRange, ReadItems, Weight;
    RangeQuotes(s);
    ScalarQuotes(s);
    if s != "" { ItemsQuotes(s[1..]); }
    var scalar := ReadScalar(s);
    if scalar.Reading? { WeightOfTwo(scalar.value, scalar.value); }
  }

  lemma OperatorQuotes(s: string)
    ensures var r := ReadOperator(s); r.Reading? ==> Quotes(s) == Quotes(r.rest)
  {
    hide ReadWord, SkipSpaces, SymbolLength, Quotes;
    SymbolHasNoQuotes(s);
    ReadWordQuotes(s);
    var word := ReadWord(s);
    if word.Reading? {
      SpacesHaveNoQuotes(word.rest);
      ReadWordQuotes(SkipSpaces(word.rest));
    }
  }

  lemma ConditionQuotes(s: string)
    ensures var r := ReadCondition(s); r.Reading? ==> Quotes(s) == WeightOf(r.value.operands) + Quotes(r.rest)
  {
    if ReadCondition(s).Reading? {
      hide ReadWord, ReadOperator, ReadOperands, SkipSpaces, Quotes, IsIdentifier, WeightOf;
      var field := ReadWord(s);
      ReadWordQuotes(s);
      SpacesHaveNoQuotes(field.rest);
      var operator := ReadOperator(SkipSpaces(field.rest));
      OperatorQuotes(SkipSpaces(field.rest));
      SpacesHaveNoQuotes(operator.rest);
      OperandsQuotes(operator.value, SkipSpaces(operator.rest));
    }
  }

  /** A WHERE holds as many quotes as its literals are printed with, however its conditions are grouped. */
  lemma {:induction false} WhereQuotes(s: string)
    ensures var r := ReadWhere(s); r.Some? ==> Quotes(s) == WeightOfAll(r.value)
    decreases |s|
  {
    var first := ReadCondition(s);
    ConditionQuotes(s);
    hide ReadCondition, Quotes, WeightOf, WellFormed, ReadWord, SkipSpaces;
    if ReadWhere(s).Some? {
      var rest := SkipSpaces(first.rest);
      SpacesHaveNoQuotes(first.rest);
      if rest == "" {
        NoQuotesInNothing();
        Weights([first.value], []);
      } else {
        var word := ReadWord(rest);
        ReadWordQuotes(rest);
        SpacesHaveNoQuotes(word.rest);
        WhereQuotes(SkipSpaces(word.rest));
        var more := ReadWhere(SkipSpaces(word.rest)).value;
        Weights([first.value], more);
        MergedWeights(first.value, more);
      }
    }
  }

  lemma NoQuotesInNothing()
    ensures Quotes("") == 0
  {
  }

  lemma Weights(conj: seq<Term>, more: seq<seq<Term>>)
    ensures WeightOfAll([conj] + more) == WeightOfTerms(conj) + WeightOfAll(more)
    ensures |conj| == 1 ==> WeightOfTerms(conj) == WeightOf(conj[0].operands)
    ensures more == [] ==> WeightOfAll([conj]) == WeightOfTerms(conj)
  {
    hide WeightOf;
    assert ([conj] + more)[1..] == more;
    assert more == [] ==> [conj] + more == [conj];
    if |conj| == 1 { assert conj[1..] == []; }
  }

  lemma MergedWeights(t: Term, more: seq<seq<Term>>)
    requires more != []
    ensures WeightOfAll([[t] + more[0]] + more[1..]) == WeightOf(t.operands) + WeightOfAll(more)
  {
    hide WeightOf;
    assert ([[t] + more[0]] + more[1..])[1..] == more[1..];
    assert ([t] + more[0])[1..] == more[0];
  }
}
