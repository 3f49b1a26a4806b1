/**
 * Decoded JSON values, as `resp.json()` hands them to the normaliser, together
 * with the two Python idioms the normaliser leans on: truthiness and `or`.
 */
module Json {

  datatype Json =
    | Null
    | Bool(b: bool)
    | Int(i: int)
    | Str(s: string)
    | List(elems: seq<Json>)
    | Object(fields: map<string, Json>)

  /** Python's `bool(v)`: None, False, 0, "", [] and {} are falsy; every other value is truthy. */
  predicate Truthy(v: Json) {
    match v
    case Null => false
    case Bool(b) => b
    case Int(i) => i != 0
    case Str(s) => |s| > 0
    case List(elems) => |elems| > 0
    case Object(fields) => |fields| > 0
  }

  /** `d.get(key)`: the stored value, or None when the key is absent. */
  function Get(d: map<string, Json>, key: string): Json {
    if key in d then d[key] else Null
  }

  /** `d.get(key, default)`. */
  function GetOr(d: map<string, Json>, key: string, default: Json): Json {
    if key in d then d[key] else default
  }

  /** Python's `a or b`: `a` itself when it is truthy, otherwise `b` itself. */
  function Or(a: Json, b: Json): Json {
    if Truthy(a) then a else b
  }

  /**
   * `vals[0] or vals[1] or ... or vals[n-1]`. The result is truthy exactly when
   * some operand is, and it is always one of the operands, unchanged.
   */
  function OrChain(vals: seq<Json>): (r: Json)
    requires |vals| > 0
    ensures r in vals
    ensures Truthy(r) <==> exists j :: 0 <= j < |vals| && Truthy(vals[j])
    decreases |vals|
  {
    if |vals| == 1 then vals[0] else Or(vals[0], OrChain(vals[1..]))
  }

  /** The chain yields the first truthy operand, whatever follows it. */
  lemma {:induction false} OrChainFirstTruthy(vals: seq<Json>, k: nat)
    requires k < |vals| && Truthy(vals[k])
    requires forall j :: 0 <= j < k ==> !Truthy(vals[j])
    ensures OrChain(vals) == vals[k]
    decreases k
  {
    if k > 0 {
      assert !Truthy(vals[0]);
      OrChainFirstTruthy(vals[1..], k - 1);
    }
  }

  /** When no operand is truthy the chain yields the last operand, falsy as it is. */
  lemma {:induction false} OrChainAllFalsy(vals: seq<Json>)
    requires |vals| > 0
    requires forall j :: 0 <= j < |vals| ==> !Truthy(vals[j])
    ensures OrChain(vals) == vals[|vals| - 1]
    decreases |vals|
  {
    if |vals| > 1 {
      OrChainAllFalsy(vals[1..]);
    }
  }

  /**
   * Python parses `a or b or c` as `(a or b) or c`; the right-nested OrChain
   * agrees with that left-nested reading for every chain length.
   */
  lemma {:induction false} OrChainLeftNested(vals: seq<Json>, x: Json)
    requires |vals| > 0
    ensures OrChain(vals + [x]) == Or(OrChain(vals), x)
    decreases |vals|
  {
    if |vals| > 1 {
      assert (vals + [x])[1..] == vals[1..] + [x];
      OrChainLeftNested(vals[1..], x);
    } else {
      assert (vals + [x])[1..] == [x];
    }
  }
}
