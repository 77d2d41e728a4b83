/**
 * `join_two_dicts` of the Bedrock Converse utilities: a copy of the first
 * dictionary into which every entry of the second one is folded, dictionaries
 * joined recursively and anything else combined with Python's `+=`.
 *
 * As written, a key found only in the second dictionary is first inserted and
 * then combined with itself, because the second `if` also fires for it; the
 * result holds `v + v` (or `v` joined with itself). `JoinDicts` models that;
 * `IntendedJoinDicts` is the join the docstring describes, where such a key
 * is simply added.
 */
module BedrockJoin {
  import opened Wrappers
  import opened BedrockTypes

  /** The characters of a string as the one-character strings a list `+=` appends. */
  function Chars(s: string): (r: seq<Value>)
    ensures |r| == |s| && forall i :: 0 <= i < |s| ==> r[i] == VStr([s[i]])
  {
    seq(|s|, i requires 0 <= i < |s| => VStr([s[i]]))
  }

  /**
   * Python `x += y` for a value `y` that is not a dict: ints add, strings and
   * lists concatenate, a list extended by a string takes its characters, and
   * every other mix raises TypeError.
   */
  function AddInPlace(x: Value, y: Value): (r: Result<Value, BedrockError>)
    requires !y.VDict?
    ensures r.Err? ==> r.error == TypeError
    ensures r.Ok? <==> (x.VInt? && y.VInt?) || (x.VStr? && y.VStr?) || (x.VList? && (y.VList? || y.VStr?))
  {
    match (x, y)
    case (VInt(a), VInt(b)) => Ok(VInt(a + b))
    case (VStr(a), VStr(b)) => Ok(VStr(a + b))
    case (VList(a), VList(b)) => Ok(VList(a + b))
    case (VList(a), VStr(b)) => Ok(VList(a + Chars(b)))
    case _ => Err(TypeError)
  }

  /**
   * `join_two_dicts(x, d)` whatever `x` is: a dict is joined; a list has a
   * `copy` and survives only when `d` is empty (indexing it by a key fails);
   * strings and ints have no `copy`.
   */
  function JoinInto(x: Value, d: map<string, Value>): (r: Result<Value, BedrockError>)
    ensures r.Err? ==> r.error == TypeError
    ensures x.VDict? ==> (r.Ok? <==> JoinDicts(x.entries, d).Ok?) && (r.Ok? ==> r.value == VDict(JoinDicts(x.entries, d).value))
    ensures x.VList? ==> (r.Ok? <==> d == map[]) && (r.Ok? ==> r.value == x)
    ensures !x.VDict? && !x.VList? ==> r.Err?
    decreases VDict(d), 2
  {
    match x
    case VDict(m) =>
      (match JoinDicts(m, d)
       case Ok(j) => Ok(VDict(j))
       case Err(e) => Err(e))
    case VList(_) => if d == map[] then Ok(x) else Err(TypeError)
    case _ => Err(TypeError)
  }

  /**
   * What the loop stores under key `k` of the second dict: its value joined
   * into, or added to, the value already there, which for a new key is that
   * same value.
   */
  function Entry(a: map<string, Value>, b: map<string, Value>, k: string): (r: Result<Value, BedrockError>)
    requires k in b
    ensures r.Err? ==> r.error == TypeError
    ensures k !in a && !b[k].VDict? ==> r == AddInPlace(b[k], b[k])
    decreases VDict(b), 0
  {
    var v := b[k];
    var current := if k in a then a[k] else v;
    if v.VDict? then JoinInto(current, v.entries) else AddInPlace(current, v)
  }

  /** `join_two_dicts(dict1, dict2)`: TypeError if any entry fails, else the joined dict. */
  function JoinDicts(a: map<string, Value>, b: map<string, Value>): (r: Result<map<string, Value>, BedrockError>)
    ensures r.Err? ==> r.error == TypeError
    ensures r.Err? <==> exists k :: k in b && Entry(a, b, k).Err?
    ensures r.Ok? ==> r.value.Keys == a.Keys + b.Keys
    ensures r.Ok? ==> forall k :: k in a && k !in b ==> r.value[k] == a[k]
    decreases VDict(b), 1
  {
    if exists k :: k in b && Entry(a, b, k).Err? then Err(TypeError)
    else Ok(map k | k in a.Keys + b.Keys :: if k in b then Entry(a, b, k).value else a[k])
  }

  /** The copy-and-fold loop of `join_two_dicts`, raising at the first entry that fails. */
  method JoinTwoDicts(dict1: map<string, Value>, dict2: map<string, Value>)
    returns (r: Result<map<string, Value>, BedrockError>)
    ensures r == JoinDicts(dict1, dict2)
    decreases VDict(dict2), 1
  {
    var newDict := dict1;
    var rest := dict2.Keys;
    while rest != {}
      invariant rest <= dict2.Keys
      invariant newDict.Keys == dict1.Keys + (dict2.Keys - rest)
      invariant forall k :: k in dict1 && k !in dict2.Keys - rest ==> newDict[k] == dict1[k]
      invariant forall k :: k in dict2.Keys - rest ==> Entry(dict1, dict2, k).Ok? && newDict[k] == Entry(dict1, dict2, k).value
      decreases rest
    {
      var key :| key in rest;
      var value := dict2[key];
      if key !in newDict {
        newDict := newDict[key := value];
      }
      var joined := CombineEntry(dict1, dict2, key, newDict[key]);
      if joined.Err? {
        return Err(joined.error);
      }
      newDict := newDict[key := joined.value];
      rest := rest - {key};
    }
    r := Ok(newDict);
    assert newDict == map k | k in dict1.Keys + dict2.Keys :: if k in dict2 then Entry(dict1, dict2, k).value else dict1[k];
  }

  /** The body of the loop for one key: join or add the key's value into the value now stored. */
  method CombineEntry(dict1: map<string, Value>, dict2: map<string, Value>, key: string, current: Value)
    returns (joined: Result<Value, BedrockError>)
    requires key in dict2 && current == if key in dict1 then dict1[key] else dict2[key]
    ensures joined == Entry(dict1, dict2, key)
    decreases VDict(dict2), 0
  {
    var value := dict2[key];
    if value.VDict? {
      assert VDict(value.entries) == value;
      joined := JoinValue(current, value.entries);
    } else {
      joined := AddInPlace(current, value);
    }
  }

  /** `join_two_dicts` called on the value already stored under a key (the recursive call). */
  method JoinValue(x: Value, d: map<string, Value>) returns (r: Result<Value, BedrockError>)
    ensures r == JoinInto(x, d)
    decreases VDict(d), 2
  {
    match x
    case VDict(m) =>
      var j := JoinTwoDicts(m, d);
      r := if j.Ok? then Ok(VDict(j.value)) else Err(j.error);
    case VList(_) =>
      r := if d == map[] then Ok(x) else Err(TypeError);
    case _ =>
      r := Err(TypeError);
  }

  // ---------------------------------------------------------------------------
  // Properties of the join

  /** Joining an empty dict changes nothing. */
  lemma JoinWithEmpty(a: map<string, Value>)
    ensures JoinDicts(a, map[]) == Ok(a)
  {
    var r := JoinDicts(a, map[]);
    assert r.Ok? && r.value.Keys == a.Keys;
    assert forall k :: k in a ==> r.value[k] == a[k];
    assert r.value == a;
  }

  /**
   * The result's keys are the union of both; a key of the first dict alone keeps
   * its value; a shared key holds the combination of both values.
   */
  lemma JoinShape(a: map<string, Value>, b: map<string, Value>, k: string)
    requires JoinDicts(a, b).Ok?
    ensures JoinDicts(a, b).value.Keys == a.Keys + b.Keys
    ensures k in a && k !in b ==> JoinDicts(a, b).value[k] == a[k]
    ensures k in a && k in b && !b[k].VDict? ==> AddInPlace(a[k], b[k]) == Ok(JoinDicts(a, b).value[k])
    ensures k in a && k in b && b[k].VDict? ==> JoinInto(a[k], b[k].entries) == Ok(JoinDicts(a, b).value[k])
  {
    if k in b {
      assert Entry(a, b, k).Ok?;
    }
  }

  /** A key of the second dict alone is treated as if the first dict already held the same value. */
  lemma {:induction false} NewKeysCombineWithThemselves(b: map<string, Value>)
    ensures JoinDicts(map[], b) == JoinDicts(b, b)
  {
    var empty: map<string, Value> := map[];
    forall k | k in b ensures Entry(empty, b, k) == Entry(b, b, k) {
    }
    var r, s := JoinDicts(empty, b), JoinDicts(b, b);
    if r.Ok? {
      assert s.Ok? && r.value.Keys == s.value.Keys;
      assert r.value == s.value;
    }
  }

  function IntOr0(m: map<string, Value>, k: string): int
  {
    if k in m && m[k].VInt? then m[k].i else 0
  }

  predicate AllInts(m: map<string, Value>)
  {
    forall k :: k in m ==> m[k].VInt?
  }

  /**
   * Joining dicts of ints never fails: shared keys are summed, keys of the first
   * dict alone keep their value and keys of the second dict alone are doubled.
   */
  lemma IntDictsSum(a: map<string, Value>, b: map<string, Value>, k: string)
    requires AllInts(a) && AllInts(b)
    ensures JoinDicts(a, b).Ok?
    ensures k in a.Keys + b.Keys ==>
              JoinDicts(a, b).value[k] == VInt(IntOr0(a, k) + IntOr0(b, k) + (if k in a then 0 else IntOr0(b, k)))
  {
    forall j | j in b ensures Entry(a, b, j).Ok? {
    }
  }

  /** Two ints under the same key add; an int and a string do not. */
  lemma JoinExamples()
    ensures JoinDicts(map["n" := VInt(1)], map["n" := VInt(2)]) == Ok(map["n" := VInt(3)])
    ensures JoinDicts(map["n" := VInt(1)], map["n" := VStr("x")]) == Err(TypeError)
    ensures JoinDicts(map["s" := VList([])], map["s" := VStr("ab")]) == Ok(map["s" := VList([VStr("a"), VStr("b")])])
  {
    var m1 := JoinDicts(map["n" := VInt(1)], map["n" := VInt(2)]);
    assert Entry(map["n" := VInt(1)], map["n" := VInt(2)], "n") == Ok(VInt(3));
    assert m1.Ok? && m1.value.Keys == {"n"} && m1.value["n"] == VInt(3);
    assert m1.value == map["n" := VInt(3)];
    assert Entry(map["n" := VInt(1)], map["n" := VStr("x")], "n").Err?;
    var ab := [VStr("a"), VStr("b")];
    assert Chars("ab") == ab;
    assert [] + ab == ab;
    assert Entry(map["s" := VList([])], map["s" := VStr("ab")], "s") == Ok(VList(ab));
    var m3 := JoinDicts(map["s" := VList([])], map["s" := VStr("ab")]);
    assert m3.Ok? && m3.value.Keys == {"s"} && m3.value["s"] == VList(ab);
    assert m3.value == map["s" := VList(ab)];
  }

  // ---------------------------------------------------------------------------
  // The new-key case, as written and as described

  /** As written, `join_two_dicts({}, {"n": 1})` is `{"n": 2}`: the new key's value is doubled. */
  lemma NewKeyDoubled()
    ensures JoinDicts(map[], map["n" := VInt(1)]) == Ok(map["n" := VInt(2)])
  {
    var b := map["n" := VInt(1)];
    assert Entry(map[], b, "n") == Ok(VInt(2));
    var r := JoinDicts(map[], b);
    assert r.Ok? && r.value.Keys == {"n"} && r.value["n"] == VInt(2);
    assert r.value == map["n" := VInt(2)];
  }

  /** The join as documented: a key only in the second dict is added as it is (`elif` instead of `if`). */
  function IntendedJoinInto(x: Value, d: map<string, Value>): (r: Result<Value, BedrockError>)
    decreases VDict(d), 2
  {
    match x
    case VDict(m) =>
      (match IntendedJoinDicts(m, d)
       case Ok(j) => Ok(VDict(j))
       case Err(e) => Err(e))
    case VList(_) => if d == map[] then Ok(x) else Err(TypeError)
    case _ => Err(TypeError)
  }

  function IntendedEntry(a: map<string, Value>, b: map<string, Value>, k: string): (r: Result<Value, BedrockError>)
    requires k in b
    decreases VDict(b), 0
  {
    var v := b[k];
    if k !in a then Ok(v)
    else if v.VDict? then IntendedJoinInto(a[k], v.entries)
    else AddInPlace(a[k], v)
  }

  function IntendedJoinDicts(a: map<string, Value>, b: map<string, Value>): (r: Result<map<string, Value>, BedrockError>)
    decreases VDict(b), 1
  {
    if exists k :: k in b && IntendedEntry(a, b, k).Err? then Err(TypeError)
    else Ok(map k | k in a.Keys + b.Keys :: if k in b then IntendedEntry(a, b, k).value else a[k])
  }

  /**
   * The intended join adds new keys unchanged and agrees with the written one
   * on every shared key; joining into an empty dict gives the second dict back.
   */
  lemma IntendedJoinAddsNewKeys(a: map<string, Value>, b: map<string, Value>, k: string)
    requires IntendedJoinDicts(a, b).Ok?
    ensures IntendedJoinDicts(a, b).value.Keys == a.Keys + b.Keys
    ensures k in b && k !in a ==> IntendedJoinDicts(a, b).value[k] == b[k]
    ensures k in a && k !in b ==> IntendedJoinDicts(a, b).value[k] == a[k]
    ensures k in a && k in b && !b[k].VDict? ==> Ok(IntendedJoinDicts(a, b).value[k]) == Entry(a, b, k)
  {
    if k in b {
      assert IntendedEntry(a, b, k).Ok?;
    }
  }

  lemma IntendedJoinIntoEmpty(b: map<string, Value>)
    ensures IntendedJoinDicts(map[], b) == Ok(b)
  {
    var empty: map<string, Value> := map[];
    forall k | k in b ensures IntendedEntry(empty, b, k) == Ok(b[k]) {
    }
    var r := IntendedJoinDicts(empty, b);
    assert r.Ok? && r.value.Keys == b.Keys;
    assert forall k :: k in b ==> r.value[k] == b[k];
    assert r.value == b;
  }
}
