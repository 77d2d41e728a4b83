/**
 * The Milvus boolean-expression serialiser `_to_milvus_filter`, as pinned by
 * the vector store's tests: standard metadata filters become comparison,
 * membership, `like` and `array_contains*` expressions joined by the filters'
 * condition; Milvus scalar filters become `ARRAY_CONTAINS` / `ARRAY_LENGTH`
 * expressions joined by " and ". Several expressions are parenthesised, a
 * single one is not.
 */
module MilvusFilter {
  import opened Text

  /** A list element of a filter value. */
  datatype Scalar = IntScalar(i: int) | StrScalar(s: string)

  datatype FilterValue = IntValue(i: int) | StrValue(s: string) | ListValue(items: seq<Scalar>)

  datatype FilterOperator = EQ | NE | GT | GTE | LT | LTE | IN | NIN | TEXT_MATCH | CONTAINS | ANY | ALL

  datatype FilterCondition = AND | OR

  datatype MetadataFilter = MetadataFilter(key: string, value: FilterValue, operator: FilterOperator)

  datatype MetadataFilters = MetadataFilters(filters: seq<MetadataFilter>, condition: FilterCondition)

  datatype ScalarOperator = ARRAY_CONTAINS | NARRAY_CONTAINS | ARRAY_LENGTH

  datatype ScalarMetadataFilter = ScalarMetadataFilter(key: string, value: FilterValue, operator: ScalarOperator)

  datatype ScalarMetadataFilters = ScalarMetadataFilters(filters: seq<ScalarMetadataFilter>)

  /** `MetadataFilter(key=..., value=...)`: the operator defaults to EQ. */
  function Filter(key: string, value: FilterValue): MetadataFilter { MetadataFilter(key, value, EQ) }

  /** `MetadataFilters(filters=...)`: the condition defaults to AND. */
  function Filters(filters: seq<MetadataFilter>): MetadataFilters { MetadataFilters(filters, AND) }

  /** `ScalarMetadataFilter(key=..., value=...)`: the operator defaults to ARRAY_CONTAINS. */
  function ScalarFilter(key: string, value: FilterValue): ScalarMetadataFilter
  {
    ScalarMetadataFilter(key, value, ARRAY_CONTAINS)
  }

  /** A list element as Milvus reads it: integers bare, strings in single quotes. */
  function ElementLiteral(x: Scalar): string
  {
    match x
    case IntScalar(i) => IntToString(i)
    case StrScalar(s) => "'" + s + "'"
  }

  function ElementLiterals(items: seq<Scalar>): (r: seq<string>)
    ensures |r| == |items| && forall k :: 0 <= k < |items| ==> r[k] == ElementLiteral(items[k])
  {
    if items == [] then [] else [ElementLiteral(items[0])] + ElementLiterals(items[1..])
  }

  function ListLiteral(items: seq<Scalar>): (r: string)
    ensures |r| >= 2 && r[0] == '[' && r[|r| - 1] == ']'
  {
    "[" + Join(", ", ElementLiterals(items)) + "]"
  }

  /** A value as an operand: strings quoted, lists bracketed with ", " between items. */
  function Literal(v: FilterValue): string
  {
    match v
    case IntValue(i) => IntToString(i)
    case StrValue(s) => "'" + s + "'"
    case ListValue(items) => ListLiteral(items)
  }

  /** A value spliced into a quoted pattern: a string without its quotes. */
  function RawText(v: FilterValue): string
  {
    match v
    case StrValue(s) => s
    case _ => Literal(v)
  }

  function ComparisonSymbol(op: FilterOperator): string
  {
    match op
    case EQ => "=="
    case NE => "!="
    case GT => ">"
    case GTE => ">="
    case LT => "<"
    case LTE => "<="
    case IN => "in"
    case NIN => "not in"
    case _ => ""
  }

  predicate IsComparison(op: FilterOperator)
  {
    op in {EQ, NE, GT, GTE, LT, LTE, IN, NIN}
  }

  /**
   * One standard filter as a Milvus expression: comparisons, membership and
   * `like` put the key first; the array operators call `array_contains*` on it.
   */
  function FilterExpr(f: MetadataFilter): (r: string)
    ensures IsComparison(f.operator) || f.operator == TEXT_MATCH ==> |r| > |f.key| && r[..|f.key| + 1] == f.key + " "
    ensures f.operator in {CONTAINS, ANY, ALL} ==>
              |r| > 15 + |f.key| && r[..14] == "array_contains" && r[|r| - 1] == ')'
  {
    match f.operator
    case TEXT_MATCH => f.key + " like '" + RawText(f.value) + "%'"
    case CONTAINS => "array_contains(" + f.key + ", " + Literal(f.value) + ")"
    case ANY => "array_contains_any(" + f.key + ", " + Literal(f.value) + ")"
    case ALL => "array_contains_all(" + f.key + ", " + Literal(f.value) + ")"
    case _ => f.key + " " + ComparisonSymbol(f.operator) + " " + Literal(f.value)
  }

  /** One Milvus scalar filter as an expression. */
  function ScalarFilterExpr(f: ScalarMetadataFilter): string
  {
    match f.operator
    case ARRAY_CONTAINS => "ARRAY_CONTAINS(" + f.key + ", " + Literal(f.value) + ")"
    case NARRAY_CONTAINS => "not ARRAY_CONTAINS(" + f.key + ", " + Literal(f.value) + ")"
    case ARRAY_LENGTH => "ARRAY_LENGTH(" + f.key + ") == " + Literal(f.value)
  }

  function ConditionSeparator(c: FilterCondition): string
  {
    match c
    case AND => " and "
    case OR => " or "
  }

  /** Joins sub-expressions with `sep`, parenthesising the whole when there are several. */
  function Combine(parts: seq<string>, sep: string): (r: string)
    ensures |parts| == 1 ==> r == parts[0]
    ensures |parts| > 1 ==> r == "(" + Join(sep, parts) + ")"
  {
    if |parts| > 1 then "(" + Join(sep, parts) + ")" else Join(sep, parts)
  }

  function FilterExprs(fs: seq<MetadataFilter>): (r: seq<string>)
    ensures |r| == |fs| && forall k :: 0 <= k < |fs| ==> r[k] == FilterExpr(fs[k])
  {
    if fs == [] then [] else [FilterExpr(fs[0])] + FilterExprs(fs[1..])
  }

  function ScalarFilterExprs(fs: seq<ScalarMetadataFilter>): (r: seq<string>)
    ensures |r| == |fs| && forall k :: 0 <= k < |fs| ==> r[k] == ScalarFilterExpr(fs[k])
  {
    if fs == [] then [] else [ScalarFilterExpr(fs[0])] + ScalarFilterExprs(fs[1..])
  }

  /**
   * `_to_milvus_filter(filters)`: standard filters only. No filter gives the
   * empty expression, one gives its own expression, several are parenthesised.
   */
  function ToMilvusFilter(filters: MetadataFilters): (r: string)
    ensures filters.filters == [] ==> r == ""
    ensures |filters.filters| == 1 ==> r == FilterExpr(filters.filters[0])
    ensures |filters.filters| > 1 ==> |r| >= 2 && r[0] == '(' && r[|r| - 1] == ')'
  {
    Combine(FilterExprs(filters.filters), ConditionSeparator(filters.condition))
  }

  /**
   * `_to_milvus_filter(None, scalar_filters.to_dict())`: scalar filters only,
   * always joined by " and ", with the same parenthesising.
   */
  function ToMilvusScalarFilter(scalars: ScalarMetadataFilters): (r: string)
    ensures scalars.filters == [] ==> r == ""
    ensures |scalars.filters| == 1 ==> r == ScalarFilterExpr(scalars.filters[0])
    ensures |scalars.filters| > 1 ==> |r| >= 2 && r[0] == '(' && r[|r| - 1] == ')'
  {
    Combine(ScalarFilterExprs(scalars.filters), " and ")
  }

  // ---------------------------------------------------------------------------
  // Structure of the rendering

  /** A single filter is rendered on its own, without parentheses, whatever the condition. */
  lemma SingleFilterUnwrapped(f: MetadataFilter, c: FilterCondition)
    ensures ToMilvusFilter(MetadataFilters([f], c)) == FilterExpr(f)
  {
    assert FilterExprs([f]) == [FilterExpr(f)];
  }

  /** Two filters are parenthesised and joined by the condition's keyword. */
  lemma TwoFiltersJoined(f: MetadataFilter, g: MetadataFilter, c: FilterCondition)
    ensures ToMilvusFilter(MetadataFilters([f, g], c))
         == "(" + FilterExpr(f) + ConditionSeparator(c) + FilterExpr(g) + ")"
  {
    var parts := FilterExprs([f, g]);
    assert parts == [FilterExpr(f), FilterExpr(g)];
    assert Join(ConditionSeparator(c), parts) == FilterExpr(f) + ConditionSeparator(c) + FilterExpr(g);
  }

  /** Several parts: '(' and the first part open the expression, ')' closes it. */
  lemma CombineOpensWithFirst(parts: seq<string>, sep: string)
    requires |parts| > 1
    ensures var r := Combine(parts, sep);
            |r| > |parts[0]| + 1 && r[0] == '(' && r[|r| - 1] == ')' && r[1..|parts[0]| + 1] == parts[0]
  {
    var inner := Join(sep, parts);
    assert inner == parts[0] + (sep + Join(sep, parts[1..]));
    assert inner[..|parts[0]|] == parts[0];
  }

  /** Several filters: the expression opens with '(' and the first filter, and closes with ')'. */
  lemma SeveralFiltersParenthesised(fs: MetadataFilters)
    requires |fs.filters| > 1
    ensures var r := ToMilvusFilter(fs);
            var first := FilterExpr(fs.filters[0]);
            |r| > |first| + 1 && r[0] == '(' && r[|r| - 1] == ')' && r[1..|first| + 1] == first
  {
    CombineOpensWithFirst(FilterExprs(fs.filters), ConditionSeparator(fs.condition));
  }

  /**
   * The shape of a scalar filter's expression: ARRAY_CONTAINS and ARRAY_LENGTH
   * are calls on the key, and NARRAY_CONTAINS is the negation of ARRAY_CONTAINS
   * on the same key and value.
   */
  lemma ScalarFilterShape(f: ScalarMetadataFilter)
    ensures var r := ScalarFilterExpr(f);
            && (f.operator == ARRAY_CONTAINS ==> |r| > 16 + |f.key| && r[..15 + |f.key|] == "ARRAY_CONTAINS(" + f.key && r[|r| - 1] == ')')
            && (f.operator == NARRAY_CONTAINS ==> r == "not " + ScalarFilterExpr(f.(operator := ARRAY_CONTAINS)))
            && (f.operator == ARRAY_LENGTH ==> |r| > 17 + |f.key| && r[..14 + |f.key|] == "ARRAY_LENGTH(" + f.key + ")")
  {
    match f.operator
    case ARRAY_CONTAINS => ContainsShape(f.key, Literal(f.value));
    case NARRAY_CONTAINS => NegatedContainsShape(f.key, Literal(f.value));
    case ARRAY_LENGTH => LengthShape(f.key, Literal(f.value));
  }

  lemma ContainsShape(key: string, lit: string)
    ensures var r := "ARRAY_CONTAINS(" + key + ", " + lit + ")";
            |r| > 16 + |key| && r[..15 + |key|] == "ARRAY_CONTAINS(" + key && r[|r| - 1] == ')'
  {
    var head := "ARRAY_CONTAINS(" + key;
    assert head + ", " + lit + ")" == head + (", " + lit + ")");
  }

  lemma NegatedContainsShape(key: string, lit: string)
    ensures "not ARRAY_CONTAINS(" + key + ", " + lit + ")" == "not " + ("ARRAY_CONTAINS(" + key + ", " + lit + ")")
  {
    assert "not ARRAY_CONTAINS(" == "not " + "ARRAY_CONTAINS(";
  }

  lemma LengthShape(key: string, lit: string)
    ensures var r := "ARRAY_LENGTH(" + key + ") == " + lit;
            |r| > 17 + |key| && r[..14 + |key|] == "ARRAY_LENGTH(" + key + ")"
  {
    var head := "ARRAY_LENGTH(" + key + ")";
    assert "ARRAY_LENGTH(" + key + ") == " + lit == head + (" == " + lit);
  }

  /** A string value is single-quoted wherever it appears as an operand. */
  lemma StringOperandQuoted(key: string, s: string, op: FilterOperator)
    requires IsComparison(op)
    ensures FilterExpr(MetadataFilter(key, StrValue(s), op)) == key + " " + ComparisonSymbol(op) + " '" + s + "'"
  {
  }

  // ---------------------------------------------------------------------------
  // The expressions pinned by the tests

  lemma SmallIntegers()
    ensures IntToString(1) == "1" && IntToString(2) == "2" && IntToString(3) == "3"
    ensures IntToString(10) == "10"
  {
    assert NatToDigits(10) == NatToDigits(1) + [DigitChar(0)];
  }

  lemma IntLiterals()
    ensures Literal(IntValue(1)) == "1" && Literal(IntValue(2)) == "2" && Literal(IntValue(10)) == "10"
  {
    SmallIntegers();
  }

  lemma ScalarList(f: ScalarMetadataFilter, g: ScalarMetadataFilter)
    ensures ToMilvusScalarFilter(ScalarMetadataFilters([f])) == ScalarFilterExpr(f)
    ensures ToMilvusScalarFilter(ScalarMetadataFilters([f, g]))
         == "(" + ScalarFilterExpr(f) + " and " + ScalarFilterExpr(g) + ")"
  {
    assert ScalarFilterExprs([f]) == [ScalarFilterExpr(f)];
    assert ScalarFilterExprs([f, g]) == [ScalarFilterExpr(f), ScalarFilterExpr(g)];
    assert Join(" and ", [ScalarFilterExpr(f), ScalarFilterExpr(g)]) == ScalarFilterExpr(f) + " and " + ScalarFilterExpr(g);
  }

  lemma ScalarArrayContainsDefault()
    ensures ToMilvusScalarFilter(ScalarMetadataFilters([ScalarFilter("a", IntValue(1))])) == "ARRAY_CONTAINS(a, 1)"
  {
    IntLiterals();
    ScalarList(ScalarFilter("a", IntValue(1)), ScalarFilter("a", IntValue(1)));
  }

  lemma ScalarNotArrayContains()
    ensures ToMilvusScalarFilter(ScalarMetadataFilters([ScalarMetadataFilter("a", IntValue(1), NARRAY_CONTAINS)]))
         == "not ARRAY_CONTAINS(a, 1)"
  {
    IntLiterals();
    var f := ScalarMetadataFilter("a", IntValue(1), NARRAY_CONTAINS);
    ScalarList(f, f);
  }

  lemma ScalarFiltersJoinedByAnd()
    ensures ToMilvusScalarFilter(ScalarMetadataFilters([
              ScalarMetadataFilter("a", StrValue("b"), NARRAY_CONTAINS),
              ScalarMetadataFilter("c", IntValue(2), ARRAY_LENGTH)]))
         == "(not ARRAY_CONTAINS(a, 'b') and ARRAY_LENGTH(c) == 2)"
  {
    var f := ScalarMetadataFilter("a", StrValue("b"), NARRAY_CONTAINS);
    var g := ScalarMetadataFilter("c", IntValue(2), ARRAY_LENGTH);
    PinnedScalarTexts();
    ScalarList(f, g);
    PinnedScalarPairText();
  }

  /** The two scalar expressions of the joined-by-and test. */
  lemma PinnedScalarTexts()
    ensures ScalarFilterExpr(ScalarMetadataFilter("a", StrValue("b"), NARRAY_CONTAINS)) == "not ARRAY_CONTAINS(a, 'b')"
    ensures ScalarFilterExpr(ScalarMetadataFilter("c", IntValue(2), ARRAY_LENGTH)) == "ARRAY_LENGTH(c) == 2"
  {
    assert Literal(StrValue("b")) == "'b'";
    IntLiterals();
  }

  /** The joined-by-and test's literal, assembled one piece at a time. */
  lemma PinnedScalarPairText()
    ensures "(" + "not ARRAY_CONTAINS(a, 'b')" + " and " + "ARRAY_LENGTH(c) == 2" + ")"
         == "(not ARRAY_CONTAINS(a, 'b') and ARRAY_LENGTH(c) == 2)"
  {
    OpenWithNegatedContains();
    assert "(not ARRAY_CONTAINS(a, 'b') and " + "ARRAY_LENGTH(c) == 2" == "(not ARRAY_CONTAINS(a, 'b') and ARRAY_LENGTH(c) == 2";
  }

  lemma OpenWithNegatedContains()
    ensures "(" + "not ARRAY_CONTAINS(a, 'b')" + " and " == "(not ARRAY_CONTAINS(a, 'b') and "
  {
    assert "(" + "not ARRAY_CONTAINS(a, 'b')" == "(not ARRAY_CONTAINS(a, 'b')";
  }

  lemma EqualityOperators()
    ensures ToMilvusFilter(Filters([Filter("a", IntValue(1))])) == "a == 1"
    ensures ToMilvusFilter(Filters([MetadataFilter("a", IntValue(1), NE)])) == "a != 1"
  {
    IntLiterals();
    assert ToMilvusFilter(Filters([Filter("a", IntValue(1))])) == "a == 1";
    assert ToMilvusFilter(Filters([MetadataFilter("a", IntValue(1), NE)])) == "a != 1";
  }

  lemma GreaterOperators()
    ensures ToMilvusFilter(Filters([MetadataFilter("a", IntValue(1), GT)])) == "a > 1"
    ensures ToMilvusFilter(Filters([MetadataFilter("a", IntValue(1), GTE)])) == "a >= 1"
  {
    IntLiterals();
    assert ToMilvusFilter(Filters([MetadataFilter("a", IntValue(1), GT)])) == "a > 1";
    assert ToMilvusFilter(Filters([MetadataFilter("a", IntValue(1), GTE)])) == "a >= 1";
  }

  lemma LessOperators()
    ensures ToMilvusFilter(Filters([MetadataFilter("a", IntValue(1), LT)])) == "a < 1"
    ensures ToMilvusFilter(Filters([MetadataFilter("a", IntValue(1), LTE)])) == "a <= 1"
  {
    IntLiterals();
    assert ToMilvusFilter(Filters([MetadataFilter("a", IntValue(1), LT)])) == "a < 1";
    assert ToMilvusFilter(Filters([MetadataFilter("a", IntValue(1), LTE)])) == "a <= 1";
  }

  lemma OneTwoThree()
    ensures Literal(ListValue([IntScalar(1), IntScalar(2), IntScalar(3)])) == "[1, 2, 3]"
  {
    SmallIntegers();
    assert ElementLiterals([IntScalar(1), IntScalar(2), IntScalar(3)]) == ["1", "2", "3"];
    assert Join(", ", ["1", "2", "3"]) == "1, 2, 3";
  }

  lemma OneTwo()
    ensures Literal(ListValue([IntScalar(1), IntScalar(2)])) == "[1, 2]"
  {
    SmallIntegers();
    assert ElementLiterals([IntScalar(1), IntScalar(2)]) == ["1", "2"];
    assert Join(", ", ["1", "2"]) == "1, 2";
  }

  lemma YouMe()
    ensures Literal(ListValue([StrScalar("you"), StrScalar("me")])) == "['you', 'me']"
  {
    assert ElementLiteral(StrScalar("you")) == "'you'";
    assert ElementLiteral(StrScalar("me")) == "'me'";
    assert ElementLiterals([StrScalar("you"), StrScalar("me")]) == ["'you'", "'me'"];
    assert Join(", ", ["'you'", "'me'"]) == "'you', 'me'";
  }

  lemma InOperator()
    ensures ToMilvusFilter(Filters([MetadataFilter("a", ListValue([IntScalar(1), IntScalar(2), IntScalar(3)]), IN)]))
         == "a in [1, 2, 3]"
  {
    var v := ListValue([IntScalar(1), IntScalar(2), IntScalar(3)]);
    OneTwoThree();
    assert FilterExpr(MetadataFilter("a", v, IN)) == "a in " + "[1, 2, 3]";
    assert "a in " + "[1, 2, 3]" == "a in [1, 2, 3]";
    assert ToMilvusFilter(Filters([MetadataFilter("a", v, IN)])) == "a in [1, 2, 3]";
  }

  lemma NotInOperator()
    ensures ToMilvusFilter(Filters([MetadataFilter("a", ListValue([IntScalar(1), IntScalar(2), IntScalar(3)]), NIN)]))
         == "a not in [1, 2, 3]"
  {
    var v := ListValue([IntScalar(1), IntScalar(2), IntScalar(3)]);
    OneTwoThree();
    assert FilterExpr(MetadataFilter("a", v, NIN)) == "a not in " + "[1, 2, 3]";
    assert "a not in " + "[1, 2, 3]" == "a not in [1, 2, 3]";
    assert ToMilvusFilter(Filters([MetadataFilter("a", v, NIN)])) == "a not in [1, 2, 3]";
  }

  lemma TextMatchOperator()
    ensures ToMilvusFilter(Filters([MetadataFilter("a", StrValue("substring"), TEXT_MATCH)])) == "a like 'substring%'"
  {
    assert FilterExpr(MetadataFilter("a", StrValue("substring"), TEXT_MATCH)) == "a like 'substring%'";
    assert ToMilvusFilter(Filters([MetadataFilter("a", StrValue("substring"), TEXT_MATCH)])) == "a like 'substring%'";
  }

  lemma ContainsOperator()
    ensures ToMilvusFilter(Filters([MetadataFilter("a", IntValue(1), CONTAINS)])) == "array_contains(a, 1)"
    ensures ToMilvusFilter(Filters([MetadataFilter("a", StrValue("hello"), CONTAINS)])) == "array_contains(a, 'hello')"
  {
    assert FilterExpr(MetadataFilter("a", IntValue(1), CONTAINS)) == "array_contains(a, 1)" by { IntLiterals(); }
    assert FilterExpr(MetadataFilter("a", StrValue("hello"), CONTAINS)) == "array_contains(a, 'hello')";
    assert ToMilvusFilter(Filters([MetadataFilter("a", IntValue(1), CONTAINS)])) == "array_contains(a, 1)";
    assert ToMilvusFilter(Filters([MetadataFilter("a", StrValue("hello"), CONTAINS)])) == "array_contains(a, 'hello')";
  }

  lemma AnyIntegers()
    ensures ToMilvusFilter(Filters([MetadataFilter("a", ListValue([IntScalar(1), IntScalar(2)]), ANY)]))
         == "array_contains_any(a, [1, 2])"
  {
    var f := MetadataFilter("a", ListValue([IntScalar(1), IntScalar(2)]), ANY);
    OneTwo();
    assert FilterExpr(f) == "array_contains_any(a, " + "[1, 2]" + ")";
    assert "array_contains_any(a, " + "[1, 2]" + ")" == "array_contains_any(a, [1, 2])";
    assert ToMilvusFilter(Filters([f])) == "array_contains_any(a, [1, 2])";
  }

  lemma AnyStrings()
    ensures ToMilvusFilter(Filters([MetadataFilter("a", ListValue([StrScalar("you"), StrScalar("me")]), ANY)]))
         == "array_contains_any(a, ['you', 'me'])"
  {
    var f := MetadataFilter("a", ListValue([StrScalar("you"), StrScalar("me")]), ANY);
    YouMe();
    assert FilterExpr(f) == "array_contains_any(a, " + "['you', 'me']" + ")";
    assert "array_contains_any(a, " + "['you', 'me']" + ")" == "array_contains_any(a, ['you', 'me'])";
    assert ToMilvusFilter(Filters([f])) == "array_contains_any(a, ['you', 'me'])";
  }

  lemma AllIntegers()
    ensures ToMilvusFilter(Filters([MetadataFilter("a", ListValue([IntScalar(1), IntScalar(2)]), ALL)]))
         == "array_contains_all(a, [1, 2])"
  {
    var f := MetadataFilter("a", ListValue([IntScalar(1), IntScalar(2)]), ALL);
    OneTwo();
    assert FilterExpr(f) == "array_contains_all(a, " + "[1, 2]" + ")";
    assert "array_contains_all(a, " + "[1, 2]" + ")" == "array_contains_all(a, [1, 2])";
    assert ToMilvusFilter(Filters([f])) == "array_contains_all(a, [1, 2])";
  }

  lemma AllStrings()
    ensures ToMilvusFilter(Filters([MetadataFilter("a", ListValue([StrScalar("you"), StrScalar("me")]), ALL)]))
         == "array_contains_all(a, ['you', 'me'])"
  {
    var f := MetadataFilter("a", ListValue([StrScalar("you"), StrScalar("me")]), ALL);
    YouMe();
    assert FilterExpr(f) == "array_contains_all(a, " + "['you', 'me']" + ")";
    assert "array_contains_all(a, " + "['you', 'me']" + ")" == "array_contains_all(a, ['you', 'me'])";
    assert ToMilvusFilter(Filters([f])) == "array_contains_all(a, ['you', 'me'])";
  }

  lemma StringEquality()
    ensures ToMilvusFilter(Filters([Filter("a", StrValue("hello"))])) == "a == 'hello'"
  {
    assert FilterExpr(Filter("a", StrValue("hello"))) == "a == 'hello'";
    assert ToMilvusFilter(Filters([Filter("a", StrValue("hello"))])) == "a == 'hello'";
  }

  lemma MultipleFiltersAnd()
    ensures ToMilvusFilter(MetadataFilters([MetadataFilter("a", IntValue(1), GTE), MetadataFilter("a", IntValue(10), LTE)], AND))
         == "(a >= 1 and a <= 10)"
  {
    var f, g := MetadataFilter("a", IntValue(1), GTE), MetadataFilter("a", IntValue(10), LTE);
    assert FilterExpr(f) == "a >= 1" && FilterExpr(g) == "a <= 10" by { IntLiterals(); }
    TwoFiltersJoined(f, g, AND);
    assert "(" + "a >= 1" + " and " == "(a >= 1 and ";
    assert "(a >= 1 and " + "a <= 10" + ")" == "(a >= 1 and a <= 10)";
  }

  lemma MultipleFiltersOr()
    ensures ToMilvusFilter(MetadataFilters([MetadataFilter("a", IntValue(1), LT), MetadataFilter("a", IntValue(10), GT)], OR))
         == "(a < 1 or a > 10)"
  {
    var f, g := MetadataFilter("a", IntValue(1), LT), MetadataFilter("a", IntValue(10), GT);
    assert FilterExpr(f) == "a < 1" && FilterExpr(g) == "a > 10" by { IntLiterals(); }
    TwoFiltersJoined(f, g, OR);
    assert "(" + "a < 1" + " or " == "(a < 1 or ";
    assert "(a < 1 or " + "a > 10" + ")" == "(a < 1 or a > 10)";
  }
}
