/**
 * The argument builders and reply shapers the command files share: runs of
 * string arguments, Go map entries flattened into field/value pairs, and the
 * loops that turn a `[]any` reply into `[]string`, `[]int` or a map.
 */
module Replies {

  import opened Wrappers
  import opened Json
  import Format

  /** Go's `%T` of a value the JSON decoder produced. */
  function TypeName(v: Json): string
  {
    match v
    case JNull => "<nil>"
    case JBool(_) => "bool"
    case JNum(_) => "float64"
    case JStr(_) => "string"
    case JArr(_) => "[]interface {}"
    case JObj(_) => "map[string]interface {}"
  }

  /** Two decoded values have the same `%T` exactly when they are of the same kind. */
  lemma TypeNameIdentifiesKind(a: Json, b: Json)
    ensures TypeName(a) == TypeName(b) <==>
      (a.JNull? && b.JNull?) || (a.JBool? && b.JBool?) || (a.JNum? && b.JNum?)
      || (a.JStr? && b.JStr?) || (a.JArr? && b.JArr?) || (a.JObj? && b.JObj?)
  {
    var names := ["<nil>", "bool", "float64", "string", "[]interface {}", "map[string]interface {}"];
    assert names[0][0] == '<' && names[1][0] == 'b' && names[2][0] == 'f' && names[3][0] == 's';
    assert names[4][0] == '[' && names[5][0] == 'm';
  }

  predicate StringOrNull(v: Json) { v.JNull? || v.JStr? }

  predicate NumOrNull(v: Json) { v.JNull? || v.JNum? }

  /** A nil reply read as "", any other as the string it must be. */
  function StringOrEmpty(v: Json): (s: string)
    requires StringOrNull(v)
    ensures v.JNull? ==> s == ""
    ensures v.JStr? ==> s == v.s
  {
    if v.JNull? then "" else v.s
  }

  // ---------------------------------------------------------------------
  // Shaping a `Send` result: the error passes through, the value is
  // asserted to the Go type the command returns.

  predicate NumReply(res: Result<Json, string>) { res.Ok? ==> res.value.JNum? }

  /** `int(res.(float64))`. */
  function AsInt(res: Result<Json, string>): (r: Result<int, string>)
    requires NumReply(res)
    ensures r.Ok? <==> res.Ok?
    ensures res.Err? ==> r == Err(res.error)
    ensures res.Ok? ==> JNum(r.value) == res.value
  {
    if res.Err? then Err(res.error) else Ok(res.value.n)
  }

  predicate StringReply(res: Result<Json, string>) { res.Ok? ==> res.value.JStr? }

  /** `res.(string)`. */
  function AsString(res: Result<Json, string>): (r: Result<string, string>)
    requires StringReply(res)
    ensures r.Ok? <==> res.Ok?
    ensures res.Err? ==> r == Err(res.error)
    ensures res.Ok? ==> JStr(r.value) == res.value
  {
    if res.Err? then Err(res.error) else Ok(res.value.s)
  }

  predicate StringOrNullReply(res: Result<Json, string>) { res.Ok? ==> StringOrNull(res.value) }

  /** `if res == nil { return "", nil }; return res.(string), nil`. */
  function AsStringOrEmpty(res: Result<Json, string>): (r: Result<string, string>)
    requires StringOrNullReply(res)
    ensures r.Ok? <==> res.Ok?
    ensures res.Err? ==> r == Err(res.error)
    ensures res == Ok(JNull) ==> r == Ok("")
    ensures StringReply(res) ==> r == AsString(res)
  {
    if res.Err? then Err(res.error) else Ok(StringOrEmpty(res.value))
  }

  predicate ListReply(res: Result<Json, string>) { res.Ok? ==> res.value.JArr? }

  /** `res.([]any)`. */
  function AsList(res: Result<Json, string>): (r: Result<seq<Json>, string>)
    requires ListReply(res)
    ensures r.Ok? <==> res.Ok?
    ensures res.Err? ==> r == Err(res.error)
    ensures res.Ok? ==> JArr(r.value) == res.value
  {
    if res.Err? then Err(res.error) else Ok(res.value.items)
  }

  /** `for _, x := range xs { args = append(args, x) }`. */
  method AppendStrings(prefix: seq<Json>, xs: seq<string>) returns (r: seq<Json>)
    ensures r == prefix + Strs(xs)
  {
    r := prefix;
    var i := 0;
    while i < |xs|
      invariant 0 <= i <= |xs|
      invariant r == prefix + Strs(xs[..i])
    {
      assert Strs(xs[..i + 1]) == Strs(xs[..i]) + [JStr(xs[i])];
      r := r + [JStr(xs[i])];
      i := i + 1;
    }
    assert xs[..i] == xs;
  }

  /** `for _, n := range ns { args = append(args, n) }`. */
  method AppendNums(prefix: seq<Json>, ns: seq<int>) returns (r: seq<Json>)
    ensures r == prefix + Nums(ns)
  {
    r := prefix;
    var i := 0;
    while i < |ns|
      invariant 0 <= i <= |ns|
      invariant r == prefix + Nums(ns[..i])
    {
      assert Nums(ns[..i + 1]) == Nums(ns[..i]) + [JNum(ns[i])];
      r := r + [JNum(ns[i])];
      i := i + 1;
    }
    assert ns[..i] == ns;
  }

  /** `result[i] = v.(string)` over a reply whose elements are all strings. */
  method StringsOf(list: seq<Json>) returns (r: seq<string>)
    requires AllStrings(list)
    ensures Strs(r) == list
  {
    r := [];
    var i := 0;
    while i < |list|
      invariant 0 <= i <= |list| && |r| == i
      invariant forall j :: 0 <= j < i ==> list[j] == JStr(r[j])
    {
      r := r + [list[i].s];
      i := i + 1;
    }
  }

  /** `HMGet`'s loop: a nil element becomes "", any other is the string it must be. */
  method StringsOrEmpty(list: seq<Json>) returns (r: seq<string>)
    requires forall i :: 0 <= i < |list| ==> StringOrNull(list[i])
    ensures |r| == |list|
    ensures forall i :: 0 <= i < |list| ==> (list[i].JNull? ==> r[i] == "") && (list[i].JStr? ==> r[i] == list[i].s)
  {
    r := [];
    var i := 0;
    while i < |list|
      invariant 0 <= i <= |list| && |r| == i
      invariant forall j :: 0 <= j < i ==> r[j] == StringOrEmpty(list[j])
    {
      r := r + [StringOrEmpty(list[i])];
      i := i + 1;
    }
  }

  /** `parseIntSlice`: a nil element stays 0, any other is the number it must be. */
  method IntsOf(list: seq<Json>) returns (r: seq<int>)
    requires forall i :: 0 <= i < |list| ==> NumOrNull(list[i])
    ensures |r| == |list|
    ensures forall i :: 0 <= i < |list| ==> (list[i].JNull? ==> r[i] == 0) && (list[i].JNum? ==> r[i] == list[i].n)
  {
    r := [];
    var i := 0;
    while i < |list|
      invariant 0 <= i <= |list| && |r| == i
      invariant forall j :: 0 <= j < i ==> r[j] == (if list[j].JNull? then 0 else list[j].n)
    {
      var n := 0;
      if !list[i].JNull? {
        n := list[i].n;
      }
      r := r + [n];
      i := i + 1;
    }
  }

  /** `result[i] = fmt.Sprint(v)` over a whole reply. */
  method SprintAll(list: seq<Json>) returns (r: seq<string>)
    ensures |r| == |list|
    ensures forall i :: 0 <= i < |list| ==> r[i] == Format.Sprint(list[i])
  {
    r := [];
    var i := 0;
    while i < |list|
      invariant 0 <= i <= |list| && |r| == i
      invariant forall j :: 0 <= j < i ==> r[j] == Format.Sprint(list[j])
    {
      r := r + [Format.Sprint(list[i])];
      i := i + 1;
    }
  }

  // ---------------------------------------------------------------------
  // Field/value pairs

  /** A flat `[f1, v1, f2, v2, …]` reply whose `.(string)` assertions cannot panic. */
  predicate PairList(l: seq<Json>)
  {
    |l| % 2 == 0 && AllStrings(l)
  }

  /** The map a flat pair list folds into, each pair overwriting earlier ones. */
  function Pairs(l: seq<Json>): map<string, string>
    requires PairList(l)
    decreases |l|
  {
    if |l| == 0 then map[]
    else Pairs(l[..|l| - 2])[l[|l| - 2].s := l[|l| - 1].s]
  }

  /** `for i := 0; i < len(list); i += 2 { result[list[i]] = list[i+1] }`. */
  method FoldPairs(l: seq<Json>) returns (m: map<string, string>)
    requires PairList(l)
    ensures m == Pairs(l)
  {
    m := map[];
    var i := 0;
    while i < |l|
      invariant 0 <= i <= |l| && i % 2 == 0
      invariant m == Pairs(l[..i])
    {
      assert l[..i + 2][..i] == l[..i];
      m := m[l[i].s := l[i + 1].s];
      i := i + 2;
    }
    assert l[..i] == l;
  }

  /** The fields of the folded map are exactly the strings at even positions. */
  lemma {:induction false} PairsDomain(l: seq<Json>, k: string)
    requires PairList(l)
    ensures k in Pairs(l) <==> exists j :: 0 <= j < |l| && j % 2 == 0 && l[j] == JStr(k)
    decreases |l|
  {
    if |l| > 0 {
      var p := l[..|l| - 2];
      PairsDomain(p, k);
      if exists j :: 0 <= j < |l| && j % 2 == 0 && l[j] == JStr(k) {
        var j :| 0 <= j < |l| && j % 2 == 0 && l[j] == JStr(k);
        if j < |p| {
          assert p[j] == JStr(k);
        }
      }
      if k in Pairs(l) {
        if k in Pairs(p) {
          var j :| 0 <= j < |p| && j % 2 == 0 && p[j] == JStr(k);
          assert l[j] == JStr(k);
        } else {
          assert l[|l| - 2] == JStr(k);
        }
      }
    }
  }

  /** A repeated field keeps the value of its last occurrence. */
  lemma {:induction false} PairsLaterWins(l: seq<Json>, j: nat)
    requires PairList(l) && j < |l| && j % 2 == 0
    requires forall j' :: j < j' < |l| && j' % 2 == 0 ==> l[j'] != l[j]
    ensures l[j].s in Pairs(l) && Pairs(l)[l[j].s] == l[j + 1].s
    decreases |l|
  {
    if j < |l| - 2 {
      var p := l[..|l| - 2];
      assert l[|l| - 2] != l[j];
      PairsLaterWins(p, j);
    }
  }

  /** The order in which Go happened to range over a map: each key once. */
  predicate IsOrdering(order: seq<string>, m: map<string, string>)
  {
    && |order| == |m|
    && (forall i :: 0 <= i < |order| ==> order[i] in m)
    && (forall k :: k in m ==> k in order)
    && (forall i, j :: 0 <= i < j < |order| ==> order[i] != order[j])
  }

  /** The map's entries as adjacent field, value arguments, in the given key order. */
  function Interleave(order: seq<string>, m: map<string, string>): (r: seq<Json>)
    requires forall i :: 0 <= i < |order| ==> order[i] in m
    ensures |r| == 2 * |order| && PairList(r)
  {
    if |order| == 0 then []
    else Interleave(order[..|order| - 1], m) + [JStr(order[|order| - 1]), JStr(m[order[|order| - 1]])]
  }

  lemma InterleaveSnoc(order: seq<string>, k: string, m: map<string, string>)
    requires forall i :: 0 <= i < |order| ==> order[i] in m
    requires k in m
    ensures Interleave(order + [k], m) == Interleave(order, m) + [JStr(k), JStr(m[k])]
  {
    assert (order + [k])[..|order|] == order;
  }

  lemma {:induction false} PairsInterleaveSome(order: seq<string>, m: map<string, string>)
    requires forall i :: 0 <= i < |order| ==> order[i] in m
    ensures forall k :: k in Pairs(Interleave(order, m)) <==> k in order
    ensures forall k :: k in Pairs(Interleave(order, m)) ==> Pairs(Interleave(order, m))[k] == m[k]
  {
    if |order| > 0 {
      var o := order[..|order| - 1];
      var last := order[|order| - 1];
      var before := Interleave(o, m);
      PairsInterleaveSome(o, m);
      var whole := Interleave(order, m);
      assert whole[..|whole| - 2] == before;
      assert Pairs(whole) == Pairs(before)[last := m[last]];
      assert order == o + [last];
    }
  }

  /**
   * Folding the pairs of a map back, in whatever order they were sent, gives
   * the map: what `HMSet` and `XAdd` send, `HGetAll` reads back.
   */
  lemma PairsInterleave(order: seq<string>, m: map<string, string>)
    requires IsOrdering(order, m)
    ensures Pairs(Interleave(order, m)) == m
    ensures |Interleave(order, m)| == 2 * |m|
  {
    PairsInterleaveSome(order, m);
    var p := Pairs(Interleave(order, m));
    assert p.Keys == m.Keys;
  }

  /** `for k, v := range m { args = append(args, k, v) }`, in Go's unspecified order. */
  method AppendPairs(prefix: seq<Json>, m: map<string, string>) returns (r: seq<Json>, ghost order: seq<string>)
    ensures IsOrdering(order, m)
    ensures r == prefix + Interleave(order, m)
  {
    r := prefix;
    order := [];
    var todo := m.Keys;
    assert |todo| == |m|;
    while todo != {}
      invariant todo <= m.Keys
      invariant forall i :: 0 <= i < |order| ==> order[i] in m && order[i] !in todo
      invariant forall k :: k in m && k !in todo ==> k in order
      invariant forall i, j :: 0 <= i < j < |order| ==> order[i] != order[j]
      invariant |order| + |todo| == |m|
      invariant r == prefix + Interleave(order, m)
      decreases |todo|
    {
      var k :| k in todo;
      InterleaveSnoc(order, k, m);
      r := r + [JStr(k), JStr(m[k])];
      order := order + [k];
      todo := todo - {k};
    }
  }
}
