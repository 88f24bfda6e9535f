/** The generated test-case record and the closed set of values its `input` and `expected`
    fields hold, with the split of a case list into normal and edge cases. */
module TestCases {
  import opened Wrappers

  /** The shapes `input` and `expected` take: Python's None, an int, a bool, a list of ints,
      the search record `{"array": items, "target": target}` and a 2-tuple. */
  datatype Value =
    | Null
    | Int(i: int)
    | Bool(b: bool)
    | IntList(xs: seq<int>)
    | Search(items: Value, target: Value)
    | Pair(first: Value, second: Value)

  /** One generated scenario; the defaults are those of the record's optional fields. */
  datatype TestCase = TestCase(
    input: Value,
    expected: Value,
    description: string := "",
    isEdgeCase: bool := false,
    weight: real := 1.0)

  /** Why a generator call stops: `random.randint` on an empty range (ValueError) or
      `random.choice` on an empty list (IndexError), while building the case at `caseIndex`. */
  datatype GenError = EmptyRange(caseIndex: nat) | EmptyChoice(caseIndex: nat)

  /** Python's `isinstance(v, int)` and the integer it denotes; a bool is an int there. */
  function AsInt(v: Value): Option<int> {
    match v
    case Int(i) => Some(i)
    case Bool(b) => Some(if b then 1 else 0)
    case _ => None
  }

  /** A case without its description: input, expected answer, edge flag and weight. */
  function Shape(tc: TestCase): (Value, Value, bool, real) {
    (tc.input, tc.expected, tc.isEdgeCase, tc.weight)
  }

  /** The cases not flagged as edge cases, in order. */
  function NormalOnly(cases: seq<TestCase>): seq<TestCase> {
    if cases == [] then []
    else (if cases[0].isEdgeCase then [] else [cases[0]]) + NormalOnly(cases[1..])
  }

  /** The cases flagged as edge cases, in order. */
  function EdgeOnly(cases: seq<TestCase>): seq<TestCase> {
    if cases == [] then []
    else (if cases[0].isEdgeCase then [cases[0]] else []) + EdgeOnly(cases[1..])
  }

  /** Python's `sum(tc.weight for tc in cases)`, exact. */
  function TotalWeight(cases: seq<TestCase>): real {
    if cases == [] then 0.0 else cases[0].weight + TotalWeight(cases[1..])
  }

  /** Every case is either normal or edge: the two filters split the list, its length and its
      total weight. */
  lemma {:induction false} SplitByEdgeFlag(cases: seq<TestCase>)
    ensures |NormalOnly(cases)| + |EdgeOnly(cases)| == |cases|
    ensures TotalWeight(NormalOnly(cases)) + TotalWeight(EdgeOnly(cases)) == TotalWeight(cases)
  {
    if cases != [] {
      SplitByEdgeFlag(cases[1..]);
      WeightOfConcat(if cases[0].isEdgeCase then [] else [cases[0]], NormalOnly(cases[1..]));
      WeightOfConcat(if cases[0].isEdgeCase then [cases[0]] else [], EdgeOnly(cases[1..]));
    }
  }

  lemma {:induction false} WeightOfConcat(a: seq<TestCase>, b: seq<TestCase>)
    ensures TotalWeight(a + b) == TotalWeight(a) + TotalWeight(b)
  {
    if a != [] {
      assert (a + b)[1..] == a[1..] + b;
      WeightOfConcat(a[1..], b);
    } else {
      assert a + b == b;
    }
  }

  lemma {:induction false} NormalOfConcat(a: seq<TestCase>, b: seq<TestCase>)
    ensures NormalOnly(a + b) == NormalOnly(a) + NormalOnly(b)
  {
    if a != [] {
      assert (a + b)[0] == a[0] && (a + b)[1..] == a[1..] + b;
      NormalOfConcat(a[1..], b);
      var n := if a[0].isEdgeCase then [] else [a[0]];
      assert NormalOnly(a + b) == n + (NormalOnly(a[1..]) + NormalOnly(b));
    } else {
      assert a + b == b;
    }
  }

  lemma {:induction false} EdgeOfConcat(a: seq<TestCase>, b: seq<TestCase>)
    ensures EdgeOnly(a + b) == EdgeOnly(a) + EdgeOnly(b)
  {
    if a != [] {
      assert (a + b)[0] == a[0] && (a + b)[1..] == a[1..] + b;
      EdgeOfConcat(a[1..], b);
      var e := if a[0].isEdgeCase then [a[0]] else [];
      assert EdgeOnly(a + b) == e + (EdgeOnly(a[1..]) + EdgeOnly(b));
    } else {
      assert a + b == b;
    }
  }

  /** Filtering a concatenation filters each part. */
  lemma FiltersOfConcat(a: seq<TestCase>, b: seq<TestCase>)
    ensures NormalOnly(a + b) == NormalOnly(a) + NormalOnly(b)
    ensures EdgeOnly(a + b) == EdgeOnly(a) + EdgeOnly(b)
  {
    NormalOfConcat(a, b);
    EdgeOfConcat(a, b);
  }

  /** A list of normal cases is its own normal part and has no edge part; and conversely. */
  lemma {:induction false} UniformFlag(cases: seq<TestCase>, edge: bool)
    requires forall k :: 0 <= k < |cases| ==> cases[k].isEdgeCase == edge
    ensures NormalOnly(cases) == (if edge then [] else cases)
    ensures EdgeOnly(cases) == (if edge then cases else [])
  {
    if cases != [] {
      UniformFlag(cases[1..], edge);
      assert cases == [cases[0]] + cases[1..];
    }
  }
}
