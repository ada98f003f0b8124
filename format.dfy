/**
 * `fmt.Sprint` of a decoded JSON value, as `Keys` and `scan` use it to turn
 * reply elements into strings: a string is itself, nil is "<nil>", a number
 * prints as Go prints a float64, a list as "[a b]" and an object as
 * "map[k:v ...]" with its keys in sorted order.
 */
module Format {

  import opened Json
  import opened Text
  import Decimal

  /** Byte-wise order on strings (a model string is a Go string's bytes), as Go sorts map keys. */
  predicate LessEq(a: string, b: string)
  {
    |a| == 0 || (|b| > 0 && (a[0] < b[0] || (a[0] == b[0] && LessEq(a[1..], b[1..]))))
  }

  lemma {:induction false} LessEqAntisymmetric(a: string, b: string)
    requires LessEq(a, b) && LessEq(b, a)
    ensures a == b
  {
    if |a| > 0 {
      LessEqAntisymmetric(a[1..], b[1..]);
    }
  }

  lemma {:induction false} LessEqTotal(a: string, b: string)
    ensures LessEq(a, b) || LessEq(b, a)
  {
    if |a| > 0 && |b| > 0 && a[0] == b[0] {
      LessEqTotal(a[1..], b[1..]);
    }
  }

  lemma {:induction false} LessEqTransitive(a: string, b: string, c: string)
    requires LessEq(a, b) && LessEq(b, c)
    ensures LessEq(a, c)
  {
    if |a| > 0 && |b| > 0 && |c| > 0 && a[0] == b[0] && b[0] == c[0] {
      LessEqTransitive(a[1..], b[1..], c[1..]);
    }
  }

  predicate IsLeast(k: string, ks: set<string>)
  {
    k in ks && forall k' :: k' in ks ==> LessEq(k, k')
  }

  lemma {:induction false} LeastExists(ks: set<string>)
    requires ks != {}
    ensures exists k :: IsLeast(k, ks)
    decreases |ks|
  {
    var x :| x in ks;
    LessEqTotal(x, x);
    if ks != {x} {
      LeastExists(ks - {x});
      var m :| IsLeast(m, ks - {x});
      LessEqTotal(m, x);
      if !LessEq(m, x) {
        forall k' | k' in ks
          ensures LessEq(x, k')
        {
          if k' != x {
            LessEqTransitive(x, m, k');
          }
        }
        assert IsLeast(x, ks);
      } else {
        assert IsLeast(m, ks);
      }
    } else {
      assert IsLeast(x, ks);
    }
  }

  /** The smallest key of a non-empty key set. */
  function LeastKey(ks: set<string>): (k: string)
    requires ks != {}
    ensures IsLeast(k, ks)
  {
    LeastExists(ks);
    assert forall a, b :: IsLeast(a, ks) && IsLeast(b, ks) ==> a == b by {
      forall a, b | IsLeast(a, ks) && IsLeast(b, ks)
        ensures a == b
      {
        LessEqAntisymmetric(a, b);
      }
    }
    var k :| IsLeast(k, ks); k
  }

  /** The keys in ascending order, each once. */
  function SortedKeys(ks: set<string>): (r: seq<string>)
    ensures |r| == |ks|
    ensures forall i :: 0 <= i < |r| ==> r[i] in ks
    ensures forall k :: k in ks ==> k in r
    ensures Ascending(r)
    decreases |ks|
  {
    if ks == {} then []
    else
      var k := LeastKey(ks);
      var rest := SortedKeys(ks - {k});
      AscendingCons(k, rest);
      [k] + rest
  }

  /** Strictly increasing: each element before every later one, and distinct from it. */
  predicate Ascending(r: seq<string>)
  {
    forall i, j :: 0 <= i < j < |r| ==> LessEq(r[i], r[j]) && r[i] != r[j]
  }

  lemma AscendingCons(k: string, rest: seq<string>)
    requires Ascending(rest)
    requires forall i :: 0 <= i < |rest| ==> LessEq(k, rest[i]) && k != rest[i]
    ensures Ascending([k] + rest)
  {
    var r := [k] + rest;
    forall i, j | 0 <= i < j < |r|
      ensures LessEq(r[i], r[j]) && r[i] != r[j]
    {
      if i > 0 {
        assert r[i] == rest[i - 1] && r[j] == rest[j - 1];
      } else {
        assert r[j] == rest[j - 1];
      }
    }
  }

  /** `fmt.Sprint(v)` for a value produced by the JSON decoder. */
  function Sprint(j: Json): string
    decreases j
  {
    match j
    case JNull => "<nil>"
    case JBool(b) => if b then "true" else "false"
    case JNum(n) => Decimal.FloatText(n)
    case JStr(s) => s
    case JArr(items) =>
      "[" + Join(seq(|items|, i requires 0 <= i < |items| => Sprint(items[i])), " ") + "]"
    case JObj(m) =>
      var ks := SortedKeys(m.Keys);
      "map[" + Join(seq(|ks|, i requires 0 <= i < |ks| => ks[i] + ":" + Sprint(m[ks[i]])), " ") + "]"
  }

  /** A list of keys prints with a space between its elements, as in "[a b]". */
  lemma SprintList()
    ensures Sprint(JArr([JStr("a"), JStr("b")])) == "[a b]"
  {
    var items := [JStr("a"), JStr("b")];
    assert seq(|items|, i requires 0 <= i < |items| => Sprint(items[i])) == ["a", "b"];
    assert Join(["a", "b"], " ") == "a" + " " + Join(["b"], " ");
  }
}
