/**
 * The decoded JSON value that Go's `encoding/json` produces for an `any`
 * target: nil, bool, float64, string, []any and map[string]any.  Numbers are
 * modelled as integers; Go's nil is `JNull`.
 */
module Json {

  import opened Wrappers

  datatype Json =
    | JNull
    | JBool(b: bool)
    | JNum(n: int)
    | JStr(s: string)
    | JArr(items: seq<Json>)
    | JObj(fields: map<string, Json>)

  /** Go's `[]any` built from a `[]string`, element by element. */
  function Strs(ss: seq<string>): (r: seq<Json>)
    ensures |r| == |ss|
    ensures forall i :: 0 <= i < |ss| ==> r[i] == JStr(ss[i])
  {
    seq(|ss|, i requires 0 <= i < |ss| => JStr(ss[i]))
  }

  /** Go's `[]any` built from a `[]int`, element by element. */
  function Nums(ns: seq<int>): (r: seq<Json>)
    ensures |r| == |ns|
    ensures forall i :: 0 <= i < |ns| ==> r[i] == JNum(ns[i])
  {
    seq(|ns|, i requires 0 <= i < |ns| => JNum(ns[i]))
  }

  lemma StrsAppend(a: seq<string>, b: seq<string>)
    ensures Strs(a + b) == Strs(a) + Strs(b)
  {
  }

  /** Every element of `js` is a string: the `v.(string)` assertions that cannot panic. */
  predicate AllStrings(js: seq<Json>)
  {
    forall i :: 0 <= i < |js| ==> js[i].JStr?
  }

  /**
   * The strings of a list whose elements are all strings, or None: the
   * inverse of `Strs`, the way a server reads back a run of string arguments.
   */
  function ParseStrings(js: seq<Json>): (r: Option<seq<string>>)
  {
    if |js| == 0 then Some([])
    else if !js[0].JStr? then None
    else match ParseStrings(js[1..])
      case None => None
      case Some(rest) => Some([js[0].s] + rest)
  }

  lemma {:induction false} ParseStringsStrs(ss: seq<string>)
    ensures ParseStrings(Strs(ss)) == Some(ss)
  {
    if |ss| > 0 {
      assert Strs(ss)[1..] == Strs(ss[1..]);
      ParseStringsStrs(ss[1..]);
      assert [ss[0]] + ss[1..] == ss;
    }
  }

  lemma {:induction false} ParseStringsOnlyStrs(js: seq<Json>, ss: seq<string>)
    requires ParseStrings(js) == Some(ss)
    ensures js == Strs(ss)
  {
    if |js| > 0 {
      ParseStringsOnlyStrs(js[1..], ss[1..]);
    }
  }
}
