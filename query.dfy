/** The list_payments query string: URLSearchParams filled key by key, then serialized. */
module Query {
  import opened Wrappers
  import opened Json
  import opened Encoding

  /** The optional filters of list_payments, each `undefined` (None) or a string. */
  datatype ListQuery = ListQuery(
    count: Option<string>,
    startId: Option<string>,
    startIndex: Option<string>,
    startTime: Option<string>,
    endTime: Option<string>,
    sortBy: Option<string>,
    sortOrder: Option<string>)

  type Pair = (string, string)

  /** The keys in the order the route sets them. */
  const KeyOrder: seq<string> :=
    ["count", "start_id", "start_index", "start_time", "end_time", "sort_by", "sort_order"]

  /** Each key beside the field that feeds it, in KeyOrder. */
  function Fields(q: ListQuery): (r: seq<(string, Option<string>)>)
    ensures |r| == |KeyOrder| && forall i :: 0 <= i < |r| ==> r[i].0 == KeyOrder[i]
  {
    [("count", q.count), ("start_id", q.startId), ("start_index", q.startIndex),
     ("start_time", q.startTime), ("end_time", q.endTime), ("sort_by", q.sortBy),
     ("sort_order", q.sortOrder)]
  }

  /** The fields that are given, with their values, in order. */
  function KeepGiven(fs: seq<(string, Option<string>)>): (r: seq<Pair>)
    ensures |r| <= |fs|
  {
    if fs == [] then []
    else if Given(fs[0].1) then [(fs[0].0, fs[0].1.value)] + KeepGiven(fs[1..])
    else KeepGiven(fs[1..])
  }

  /** The pairs the query string carries: one per truthy filter, in KeyOrder. */
  function QueryEntries(q: Option<ListQuery>): seq<Pair> {
    if q.None? then [] else KeepGiven(Fields(q.value))
  }

  predicate HasName(ps: seq<Pair>, name: string) {
    exists i :: 0 <= i < |ps| && ps[i].0 == name
  }

  /** Pairs with every `name` entry replaced: the first by (name, value), the rest dropped. */
  function ReplaceNamed(ps: seq<Pair>, name: string, value: string, seen: bool): seq<Pair> {
    if ps == [] then []
    else if ps[0].0 == name then
      if seen then ReplaceNamed(ps[1..], name, value, true)
      else [(name, value)] + ReplaceNamed(ps[1..], name, value, true)
    else [ps[0]] + ReplaceNamed(ps[1..], name, value, seen)
  }

  /** The number of pairs named `name`. */
  function CountNamed(ps: seq<Pair>, name: string): nat {
    if ps == [] then 0 else (if ps[0].0 == name then 1 else 0) + CountNamed(ps[1..], name)
  }

  /** The pairs not named `name`, in order. */
  function Others(ps: seq<Pair>, name: string): seq<Pair> {
    if ps == [] then [] else (if ps[0].0 == name then [] else [ps[0]]) + Others(ps[1..], name)
  }

  /**
   * Replacing keeps the other pairs in order, leaves one `name` pair (none when one was
   * already written), and every `name` pair it leaves holds the new value.
   */
  lemma {:induction false} ReplaceNamedShape(ps: seq<Pair>, name: string, value: string, seen: bool)
    ensures var r := ReplaceNamed(ps, name, value, seen);
            Others(r, name) == Others(ps, name) &&
            CountNamed(r, name) == (if !seen && HasName(ps, name) then 1 else 0) &&
            forall i :: 0 <= i < |r| && r[i].0 == name ==> r[i].1 == value
  {
    if ps != [] {
      var rest := ps[1..];
      ReplaceNamedShape(rest, name, value, seen || ps[0].0 == name);
      if ps[0].0 != name && HasName(ps, name) {
        var i :| 0 <= i < |ps| && ps[i].0 == name;
        assert rest[i - 1].0 == name;
      }
      if HasName(rest, name) {
        var i :| 0 <= i < |rest| && rest[i].0 == name;
        assert ps[i + 1].0 == name;
      }
    }
  }

  /**
   * `URLSearchParams.set`: append a pair for a new name; for a name already present,
   * leave a single pair with that name holding the new value, the others kept in order.
   */
  function SetParam(ps: seq<Pair>, name: string, value: string): (r: seq<Pair>)
    ensures !HasName(ps, name) ==> r == ps + [(name, value)]
    ensures HasName(ps, name) ==>
              Others(r, name) == Others(ps, name) && CountNamed(r, name) == 1 &&
              forall i :: 0 <= i < |r| && r[i].0 == name ==> r[i].1 == value
  {
    if HasName(ps, name) then
      ReplaceNamedShape(ps, name, value, false);
      ReplaceNamed(ps, name, value, false)
    else ps + [(name, value)]
  }

  function SerializePair(p: Pair): string {
    FormEncode(p.0) + "=" + FormEncode(p.1)
  }

  /** `URLSearchParams.toString`: the pairs joined with `&`. */
  function SerializePairs(ps: seq<Pair>): (r: string)
    ensures r == "" <==> ps == []
  {
    if ps == [] then ""
    else if |ps| == 1 then SerializePair(ps[0])
    else SerializePair(ps[0]) + "&" + SerializePairs(ps[1..])
  }

  function QueryString(q: Option<ListQuery>): string {
    SerializePairs(QueryEntries(q))
  }

  /** KeyOrder holds seven distinct keys. */
  lemma KeyOrderDistinct()
    ensures forall i, j :: 0 <= i < j < |KeyOrder| ==> KeyOrder[i] != KeyOrder[j]
  {
  }

  /** A name carried by no field is not among the kept pairs. */
  lemma {:induction false} NotKept(fs: seq<(string, Option<string>)>, name: string)
    requires forall j :: 0 <= j < |fs| ==> fs[j].0 != name
    ensures !HasName(KeepGiven(fs), name)
  {
    if fs != [] {
      NotKept(fs[1..], name);
      var rest := KeepGiven(fs[1..]);
      assert forall i :: 0 <= i < |rest| ==> rest[i].0 != name;
      if Given(fs[0].1) {
        var r := [(fs[0].0, fs[0].1.value)] + rest;
        assert forall i :: 0 <= i < |r| ==> r[i].0 != name by {
          forall i | 0 <= i < |r| ensures r[i].0 != name {
            if i > 0 { assert r[i] == rest[i - 1]; }
          }
        }
      }
    }
  }

  /** Keeping the given fields of one more element extends the kept prefix by that element alone. */
  lemma {:induction false} TakeOneMore(fs: seq<(string, Option<string>)>, n: nat)
    requires n < |fs|
    ensures KeepGiven(fs[..n + 1]) ==
              KeepGiven(fs[..n]) + (if Given(fs[n].1) then [(fs[n].0, fs[n].1.value)] else [])
    decreases n
  {
    if n > 0 {
      TakeOneMore(fs[1..], n - 1);
      assert fs[1..][..n] == fs[..n + 1][1..];
      assert fs[1..][..n - 1] == fs[..n][1..];
    }
  }

  /**
   * One guarded `set` of the route: the n-th key is not set yet, and appending it
   * when its field is given keeps the pairs equal to the kept prefix of the fields.
   */
  lemma Step(q: ListQuery, n: nat, params: seq<Pair>)
    requires n < |KeyOrder|
    requires params == KeepGiven(Fields(q)[..n])
    ensures !HasName(params, KeyOrder[n])
    ensures params + (if Given(Fields(q)[n].1) then [(KeyOrder[n], Fields(q)[n].1.value)] else [])
            == KeepGiven(Fields(q)[..n + 1])
  {
    var fs := Fields(q);
    KeyOrderDistinct();
    NotKept(fs[..n], KeyOrder[n]);
    TakeOneMore(fs, n);
  }

  /** `if (value) params.set(name, value)` for a name that is not set yet. */
  method SetIfGiven(params: seq<Pair>, name: string, value: Option<string>) returns (ps: seq<Pair>)
    requires !HasName(params, name)
    ensures ps == params + (if Given(value) then [(name, value.value)] else [])
  {
    ps := params;
    if Given(value) {
      ps := SetParam(ps, name, value.value);
    }
  }

  /** The first four guarded `set` calls: count, start_id, start_index, start_time. */
  method SetLeadingFilters(f: ListQuery) returns (params: seq<Pair>)
    ensures params == KeepGiven(Fields(f)[..4])
  {
    params := [];
    assert Fields(f)[..0] == [];
    Step(f, 0, params);
    params := SetIfGiven(params, "count", f.count);
    Step(f, 1, params);
    params := SetIfGiven(params, "start_id", f.startId);
    Step(f, 2, params);
    params := SetIfGiven(params, "start_index", f.startIndex);
    Step(f, 3, params);
    params := SetIfGiven(params, "start_time", f.startTime);
  }

  /** The last three guarded `set` calls: end_time, sort_by, sort_order. */
  method SetTrailingFilters(f: ListQuery, leading: seq<Pair>) returns (params: seq<Pair>)
    requires leading == KeepGiven(Fields(f)[..4])
    ensures params == KeepGiven(Fields(f))
  {
    params := leading;
    Step(f, 4, params);
    params := SetIfGiven(params, "end_time", f.endTime);
    Step(f, 5, params);
    params := SetIfGiven(params, "sort_by", f.sortBy);
    Step(f, 6, params);
    params := SetIfGiven(params, "sort_order", f.sortOrder);
    assert Fields(f)[..7] == Fields(f);
  }

  /**
   * The route's sequence of guarded `params.set` calls, in KeyOrder. Every key is
   * new when it is set, so each call appends, and the result is the serialized
   * QueryEntries.
   */
  method BuildListQuery(q: Option<ListQuery>) returns (qs: string)
    ensures qs == QueryString(q)
    ensures qs == "" <==> QueryEntries(q) == []
  {
    var params: seq<Pair> := [];
    if q.Some? {
      params := SetLeadingFilters(q.value);
      params := SetTrailingFilters(q.value, params);
    }
    qs := SerializePairs(params);
  }

  /* ---------- what the query promises ---------- */

  /** Position of a key in KeyOrder, or -1. */
  function Rank(k: string): int {
    if k == "count" then 0
    else if k == "start_id" then 1
    else if k == "start_index" then 2
    else if k == "start_time" then 3
    else if k == "end_time" then 4
    else if k == "sort_by" then 5
    else if k == "sort_order" then 6
    else -1
  }

  lemma {:induction false} KeepGivenMembers(fs: seq<(string, Option<string>)>)
    ensures forall p :: p in KeepGiven(fs) <==>
              exists i :: 0 <= i < |fs| && fs[i] == (p.0, Some(p.1)) && p.1 != ""
  {
    if fs != [] {
      KeepGivenMembers(fs[1..]);
      forall p ensures p in KeepGiven(fs) <==>
                       exists i :: 0 <= i < |fs| && fs[i] == (p.0, Some(p.1)) && p.1 != ""
      {
        if p in KeepGiven(fs[1..]) {
          var i :| 0 <= i < |fs[1..]| && fs[1..][i] == (p.0, Some(p.1)) && p.1 != "";
          assert fs[i + 1] == (p.0, Some(p.1));
        }
        if exists i :: 0 <= i < |fs| && fs[i] == (p.0, Some(p.1)) && p.1 != "" {
          var i :| 0 <= i < |fs| && fs[i] == (p.0, Some(p.1)) && p.1 != "";
          if i > 0 { assert fs[1..][i - 1] == (p.0, Some(p.1)); }
        }
      }
    }
  }

  lemma {:induction false} KeepGivenRanked(fs: seq<(string, Option<string>)>, off: nat)
    requires forall i :: 0 <= i < |fs| ==> Rank(fs[i].0) == off + i
    ensures forall i :: 0 <= i < |KeepGiven(fs)| ==> off <= Rank(KeepGiven(fs)[i].0) < off + |fs|
    ensures forall i, j :: 0 <= i < j < |KeepGiven(fs)| ==> Rank(KeepGiven(fs)[i].0) < Rank(KeepGiven(fs)[j].0)
  {
    if fs != [] {
      KeepGivenRanked(fs[1..], off + 1);
      var rest := KeepGiven(fs[1..]);
      if Given(fs[0].1) {
        var r := KeepGiven(fs);
        assert r == [(fs[0].0, fs[0].1.value)] + rest;
        assert forall i :: 0 < i < |r| ==> r[i] == rest[i - 1];
      }
    }
  }

  /**
   * The list_payments query carries a pair (k, v) exactly when the filter keyed
   * k holds the non-empty string v; nothing else, values verbatim.
   */
  lemma QueryCarriesExactlyGivenFilters(q: ListQuery)
    ensures forall p :: p in QueryEntries(Some(q)) <==>
              exists i :: 0 <= i < |KeyOrder| && KeyOrder[i] == p.0 && Fields(q)[i].1 == Some(p.1) && p.1 != ""
  {
    KeepGivenMembers(Fields(q));
  }

  /** The pairs appear in the fixed order count, start_id, start_index, start_time, end_time, sort_by, sort_order. */
  lemma QueryFollowsKeyOrder(q: Option<ListQuery>)
    ensures forall i, j :: 0 <= i < j < |QueryEntries(q)| ==>
              0 <= Rank(QueryEntries(q)[i].0) < Rank(QueryEntries(q)[j].0)
  {
    if q.Some? {
      var fs := Fields(q.value);
      assert forall i :: 0 <= i < |KeyOrder| ==> Rank(KeyOrder[i]) == i;
      assert forall i :: 0 <= i < |fs| ==> Rank(fs[i].0) == i;
      KeepGivenRanked(fs, 0);
      var e := QueryEntries(q);
      assert e == KeepGiven(fs);
      forall i, j | 0 <= i < j < |e| ensures 0 <= Rank(e[i].0) < Rank(e[j].0) {
        assert 0 <= Rank(KeepGiven(fs)[i].0);
      }
    } else {
      assert QueryEntries(q) == [];
    }
  }

  /** The query string is empty exactly when no filter is truthy (and so no `?` is added). */
  lemma QueryEmptyIffNothingGiven(q: Option<ListQuery>)
    ensures QueryString(q) == "" <==>
              (q.None? || forall i :: 0 <= i < |KeyOrder| ==> !Given(Fields(q.value)[i].1))
  {
    if q.Some? {
      var fs := Fields(q.value);
      KeepGivenMembers(fs);
      if exists i :: 0 <= i < |KeyOrder| && Given(fs[i].1) {
        var i :| 0 <= i < |KeyOrder| && Given(fs[i].1);
        assert (fs[i].0, fs[i].1.value) in KeepGiven(fs);
      }
    }
  }

  /** The filter record with count "5" and a start time, all else undefined. */
  function ExampleQuery(startTime: string): ListQuery {
    ListQuery(Some("5"), None, None, Some(startTime), None, None, None)
  }

  /** With a count and a start time only, the query holds exactly those two pairs, count first. */
  lemma ExampleEntries(t: string)
    requires t != ""
    ensures QueryEntries(Some(ExampleQuery(t))) == [("count", "5"), ("start_time", t)]
  {
    var fs := Fields(ExampleQuery(t));
    assert KeepGiven(fs[7..]) == [];
    assert KeepGiven(fs[6..]) == [];
    assert KeepGiven(fs[5..]) == [];
    assert KeepGiven(fs[4..]) == [];
    assert KeepGiven(fs[3..]) == [("start_time", t)];
    assert KeepGiven(fs[2..]) == [("start_time", t)];
    assert KeepGiven(fs[1..]) == [("start_time", t)];
  }

  /** Colons between unreserved pieces are the only characters that get escaped. */
  lemma EncodeColonJoined(a: string, b: string, c: string)
    requires UnreservedText(a) && UnreservedText(b) && UnreservedText(c)
    ensures FormEncode(a + ":" + b + ":" + c) == a + "%3A" + b + "%3A" + c
  {
    FormEncodeUnreservedVerbatim(a);
    FormEncodeUnreservedVerbatim(b);
    FormEncodeUnreservedVerbatim(c);
    ColonEncoding();
    var x := a + ":";
    FormEncodeAppend(a, ":");
    var y := x + b;
    FormEncodeAppend(x, b);
    var z := y + ":";
    FormEncodeAppend(y, ":");
    FormEncodeAppend(z, c);
    assert FormEncode(z + c) == ((a + "%3A") + b + "%3A") + c;
  }

  lemma ColonEncoding()
    ensures FormEncode(":") == "%3A"
  {
    assert Utf8(":") == [0x3A];
    assert EncodeBytes([0x3A]) == EncodeByte(0x3A) + EncodeBytes([]);
  }

  /** A timestamp's colons are the characters the query escapes: `2024-01-01T00%3A00%3A00Z`. */
  lemma ExampleTimeEncoding(t: string)
    requires t == "2024-01-01T00:00:00Z"
    ensures FormEncode(t) == "2024-01-01T00%3A00%3A00Z"
  {
    var a, b, c := t[..13], t[14..16], t[17..];
    assert t == a + ":" + b + ":" + c;
    EncodeColonJoined(a, b, c);
  }

  /** Two pairs whose keys and first value encode verbatim serialize as `k1=v1&k2=<v2 encoded>`. */
  lemma SerializeTwo(k1: string, v1: string, k2: string, v2: string)
    requires FormEncode(k1) == k1 && FormEncode(v1) == v1 && FormEncode(k2) == k2
    ensures SerializePairs([(k1, v1), (k2, v2)]) == k1 + "=" + v1 + "&" + k2 + "=" + FormEncode(v2)
  {
    assert [(k1, v1), (k2, v2)][1..] == [(k2, v2)];
  }

  /** The example's keys and count are unreserved text, so they are sent verbatim. */
  lemma ExamplePartVerbatim(k: string)
    requires k == "count" || k == "5" || k == "start_time"
    ensures FormEncode(k) == k
  {
    assert UnreservedText(k);
    FormEncodeUnreservedVerbatim(k);
  }

  /** The example's two pairs, serialized with the verbatim parts written out. */
  lemma ExampleSerialized(t: string)
    ensures SerializePairs([("count", "5"), ("start_time", t)]) ==
            "count" + "=" + "5" + "&" + "start_time" + "=" + FormEncode(t)
  {
    ExamplePartVerbatim("count");
    ExamplePartVerbatim("5");
    ExamplePartVerbatim("start_time");
    SerializeTwo("count", "5", "start_time", t);
  }

  lemma ExampleJoined(e: string)
    requires e == "2024-01-01T00%3A00%3A00Z"
    ensures "count" + "=" + "5" + "&" + "start_time" + "=" + e == "count=5&start_time=2024-01-01T00%3A00%3A00Z"
  {
  }

  /** A count of 5 with the console's placeholder start time: `count=5&start_time=2024-01-01T00%3A00%3A00Z`. */
  lemma ExampleQueryString(t: string)
    requires t == "2024-01-01T00:00:00Z"
    ensures QueryString(Some(ExampleQuery(t))) == "count=5&start_time=2024-01-01T00%3A00%3A00Z"
  {
    ExampleEntries(t);
    assert QueryString(Some(ExampleQuery(t))) == SerializePairs([("count", "5"), ("start_time", t)]);
    ExampleSerialized(t);
    ExampleTimeEncoding(t);
    ExampleJoined(FormEncode(t));
  }
}
