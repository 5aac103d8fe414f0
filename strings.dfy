/** String operations the flow uses: prefix test, removal of one trailing slash, and the
    `key=value&...` query layout the authorization URL is written in, with a reference
    parser that reads such a query back. */
module Strings {

  /** strings.HasPrefix */
  predicate HasPrefix(s: string, prefix: string)
  {
    |prefix| <= |s| && s[..|prefix|] == prefix
  }

  /** strings.TrimSuffix(s, "/"): removes one trailing slash, if there is one. */
  function TrimSlash(s: string): (r: string)
    ensures r == s || r + "/" == s
    ensures r != s <==> (|s| > 0 && s[|s| - 1] == '/')
  {
    if |s| > 0 && s[|s| - 1] == '/' then s[..|s| - 1] else s
  }

  /** A key or value that can stand in a query without being split apart. */
  predicate QuerySafe(s: string)
  {
    '&' !in s && '=' !in s
  }

  /** Parameters written as `k1=v1&k2=v2&...`, in order. */
  function JoinQuery(ps: seq<(string, string)>): string
  {
    if |ps| == 0 then ""
    else if |ps| == 1 then ps[0].0 + "=" + ps[0].1
    else ps[0].0 + "=" + ps[0].1 + "&" + JoinQuery(ps[1..])
  }

  /** Position of the first `d` in `s`. */
  function IndexOf(s: string, d: char): (i: nat)
    requires d in s
    ensures i < |s| && s[i] == d && d !in s[..i]
  {
    if s[0] == d then 0
    else
      var j := IndexOf(s[1..], d);
      assert s[..1 + j] == [s[0]] + s[1..][..j];
      1 + j
  }

  /** strings.Split(s, [d]) */
  function Split(s: string, d: char): (parts: seq<string>)
    ensures |parts| > 0
    decreases |s|
  {
    if d !in s then [s]
    else
      var i := IndexOf(s, d);
      [s[..i]] + Split(s[i + 1..], d)
  }

  /** The key and value of one `key=value` piece, cut at its first `=`. */
  function SplitPair(p: string): (string, string)
  {
    if '=' in p then (p[..IndexOf(p, '=')], p[IndexOf(p, '=') + 1..]) else (p, "")
  }

  /** Reference parser: the parameters of a query, in order. */
  function ParseQuery(q: string): seq<(string, string)>
  {
    PairsOf(Split(q, '&'))
  }

  function PairsOf(parts: seq<string>): (ps: seq<(string, string)>)
    ensures |ps| == |parts|
  {
    if parts == [] then [] else [SplitPair(parts[0])] + PairsOf(parts[1..])
  }

  lemma IndexOfFirst(a: string, d: char, b: string)
    requires d !in a
    ensures d in a + [d] + b && IndexOf(a + [d] + b, d) == |a|
  {
    assert (a + [d] + b)[|a|] == d;
  }

  lemma SplitCons(a: string, d: char, b: string)
    requires d !in a
    ensures Split(a + [d] + b, d) == [a] + Split(b, d)
  {
    var s := a + [d] + b;
    IndexOfFirst(a, d, b);
    assert s[..|a|] == a;
    assert s[|a| + 1..] == b;
  }

  lemma SplitPairOf(k: string, v: string)
    requires '=' !in k
    ensures SplitPair(k + "=" + v) == (k, v)
  {
    IndexOfFirst(k, '=', v);
    assert k + "=" + v == k + ['='] + v;
    assert (k + "=" + v)[..|k|] == k;
    assert (k + "=" + v)[|k| + 1..] == v;
  }

  /** One safe parameter written `key=value` holds no `&` and is cut back into its parts. */
  lemma PairRoundTrip(k: string, v: string)
    requires QuerySafe(k) && QuerySafe(v)
    ensures '&' !in k + "=" + v
    ensures SplitPair(k + "=" + v) == (k, v)
  {
    assert k + "=" + v == k + ['='] + v;
    SplitPairOf(k, v);
  }

  lemma PairsOfCons(p: string, parts: seq<string>)
    ensures PairsOf([p] + parts) == [SplitPair(p)] + PairsOf(parts)
  {
    assert ([p] + parts)[1..] == parts;
  }

  /** Round trip: a non-empty list of safe parameters is read back exactly as written. */
  lemma {:induction false} ParseJoinQuery(ps: seq<(string, string)>)
    requires |ps| > 0
    requires forall i :: 0 <= i < |ps| ==> QuerySafe(ps[i].0) && QuerySafe(ps[i].1)
    ensures ParseQuery(JoinQuery(ps)) == ps
  {
    var k, v := ps[0].0, ps[0].1;
    var head := k + "=" + v;
    PairRoundTrip(k, v);
    if |ps| == 1 {
      assert JoinQuery(ps) == head;
      assert Split(head, '&') == [head];
      PairsOfCons(head, []);
      assert ps == [(k, v)];
    } else {
      var tail := ps[1..];
      assert forall i :: 0 <= i < |tail| ==> QuerySafe(tail[i].0) && QuerySafe(tail[i].1) by {
        forall i | 0 <= i < |tail| ensures QuerySafe(tail[i].0) && QuerySafe(tail[i].1) {
          assert tail[i] == ps[i + 1];
        }
      }
      var rest := JoinQuery(tail);
      assert JoinQuery(ps) == head + "&" + rest;
      assert head + "&" + rest == head + ['&'] + rest;
      SplitCons(head, '&', rest);
      ParseJoinQuery(tail);
      PairsOfCons(head, Split(rest, '&'));
      calc {
        ParseQuery(JoinQuery(ps));
        PairsOf([head] + Split(rest, '&'));
        [SplitPair(head)] + PairsOf(Split(rest, '&'));
        [(k, v)] + tail;
        ps;
      }
    }
  }
}
