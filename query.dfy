/**
 * A reader for the query strings the client writes by hand into GET
 * endpoints: the path is everything before the first '?', the pairs after it
 * are separated by '&', and each pair is split at its first '='. The
 * reader takes the text as written: it does no percent-decoding, reads '+'
 * as itself and does not stop at a '#' fragment. A server reads the same
 * pairs only from text that is `Verbatim`; the client writes whatever it is
 * given, so the properties that connect the two require it.
 */
module Query {

  /** Text a server reads back unchanged: no pair separator, no fragment
      mark, no percent escape and no '+' (which servers decode as a space). */
  predicate Verbatim(s: string) {
    '&' !in s && '#' !in s && '%' !in s && '+' !in s
  }

  /** Index of the first occurrence of `c` in `s`. */
  function IndexOf(s: string, c: char): (i: nat)
    requires c in s
    ensures i < |s| && s[i] == c && c !in s[..i]
  {
    if s[0] == c then 0
    else
      var j := IndexOf(s[1..], c);
      assert s[..j + 1] == [s[0]] + s[1..][..j];
      1 + j
  }

  lemma IndexOfAfter(a: string, c: char, b: string)
    requires c !in a
    ensures c in a + [c] + b && IndexOf(a + [c] + b, c) == |a|
  {
    var s := a + [c] + b;
    assert s[|a|] == c;
    assert s[..|a|] == a;
  }

  /** The part of `s` before the first `c` (all of `s` when there is none). */
  function Before(s: string, c: char): string {
    if c in s then s[..IndexOf(s, c)] else s
  }

  /** Cutting at the first `c` is unaffected by a prefix that holds none. */
  lemma BeforeAppend(a: string, s: string, c: char)
    requires c !in a
    ensures Before(a + s, c) == a + Before(s, c)
  {
    var t := a + s;
    assert t[..|a|] == a;
    if c in s {
      var j := IndexOf(s, c);
      assert t[|a| + j] == c;
      var i := IndexOf(t, c);
      assert t[..i] == a + s[..j] by {
        assert i >= |a|;
        assert s[i - |a|] == c;
        assert s[..j][i - |a|..] == [] by {
          assert c !in s[..j];
        }
      }
    } else {
      assert forall k :: |a| <= k < |t| ==> t[k] == s[k - |a|];
    }
  }

  /** The part of `s` after the first `c` (empty when there is none). */
  function After(s: string, c: char): string {
    if c in s then s[IndexOf(s, c) + 1..] else ""
  }

  lemma BeforeAfter(a: string, c: char, b: string)
    requires c !in a
    ensures Before(a + [c] + b, c) == a && After(a + [c] + b, c) == b
  {
    IndexOfAfter(a, c, b);
    var s := a + [c] + b;
    assert s[..|a|] == a;
    assert s[|a| + 1..] == b;
  }

  /** The pieces of `s` between occurrences of `sep`. */
  function Split(s: string, sep: char): (parts: seq<string>)
    ensures |parts| >= 1
    decreases |s|
  {
    if sep in s then [Before(s, sep)] + Split(After(s, sep), sep) else [s]
  }

  /** The pieces joined with `sep` between each two. */
  function Join(parts: seq<string>, sep: char): string
    requires |parts| >= 1
  {
    if |parts| == 1 then parts[0] else parts[0] + [sep] + Join(parts[1..], sep)
  }

  lemma {:induction false} SplitJoin(parts: seq<string>, sep: char)
    requires |parts| >= 1
    requires forall i :: 0 <= i < |parts| ==> sep !in parts[i]
    ensures Split(Join(parts, sep), sep) == parts
  {
    if |parts| > 1 {
      var rest := Join(parts[1..], sep);
      BeforeAfter(parts[0], sep, rest);
      SplitJoin(parts[1..], sep);
      assert [parts[0]] + parts[1..] == parts;
    } else {
      assert sep !in parts[0];
    }
  }

  /** One `key=value` piece read as a pair. */
  function Field(p: string): (string, string) {
    (Before(p, '='), After(p, '='))
  }

  function Fields(ps: seq<string>): (r: seq<(string, string)>)
    ensures |r| == |ps|
  {
    if ps == [] then [] else [Field(ps[0])] + Fields(ps[1..])
  }

  /** The path of a URL or endpoint: everything before the first '?'. */
  function PathOf(url: string): string {
    Before(url, '?')
  }

  /** The query parameters of a URL or endpoint, in order. */
  function QueryOf(url: string): seq<(string, string)> {
    if '?' in url then Fields(Split(After(url, '?'), '&')) else []
  }

  /** The `key=value` pieces of a parameter list. */
  function Pieces(pairs: seq<(string, string)>): (r: seq<string>)
    ensures |r| == |pairs|
    ensures forall i :: 0 <= i < |r| ==> r[i] == pairs[i].0 + "=" + pairs[i].1
  {
    if pairs == [] then [] else [pairs[0].0 + "=" + pairs[0].1] + Pieces(pairs[1..])
  }

  /** A parameter list written the way the client writes one by hand. */
  function Encode(pairs: seq<(string, string)>): string
    requires |pairs| >= 1
  {
    Join(Pieces(pairs), '&')
  }

  /** A list the hand-written form can carry: no key holds '=' or '&', no
      value holds '&'. */
  predicate Encodable(pairs: seq<(string, string)>) {
    forall i :: 0 <= i < |pairs| ==> '=' !in pairs[i].0 && '&' !in pairs[i].0 && '&' !in pairs[i].1
  }

  lemma {:induction false} FieldsOfPieces(pairs: seq<(string, string)>)
    requires forall i :: 0 <= i < |pairs| ==> '=' !in pairs[i].0
    ensures Fields(Pieces(pairs)) == pairs
  {
    if pairs != [] {
      var p := pairs[0];
      BeforeAfter(p.0, '=', p.1);
      assert p.0 + "=" + p.1 == p.0 + ['='] + p.1;
      FieldsOfPieces(pairs[1..]);
      assert Pieces(pairs)[1..] == Pieces(pairs[1..]);
    }
  }

  /** Writing a path and an encodable list by hand and reading it back
      gives the same path and the same list. */
  lemma QueryRoundTrip(path: string, pairs: seq<(string, string)>)
    requires '?' !in path && |pairs| >= 1 && Encodable(pairs)
    ensures PathOf(path + "?" + Encode(pairs)) == path
    ensures QueryOf(path + "?" + Encode(pairs)) == pairs
  {
    var q := Encode(pairs);
    assert path + "?" + q == path + ['?'] + q;
    BeforeAfter(path, '?', q);
    var ps := Pieces(pairs);
    forall i | 0 <= i < |ps| ensures '&' !in ps[i] {
      assert ps[i] == pairs[i].0 + "=" + pairs[i].1;
    }
    SplitJoin(ps, '&');
    FieldsOfPieces(pairs);
  }

  /** The two-parameter case, in the shape the client writes it. */
  lemma TwoPairs(path: string, k1: string, v1: string, k2: string, v2: string)
    requires '?' !in path && '=' !in k1 && '&' !in k1 && '&' !in v1 && '=' !in k2 && '&' !in k2 && '&' !in v2
    ensures PathOf(path + "?" + k1 + "=" + v1 + "&" + k2 + "=" + v2) == path
    ensures QueryOf(path + "?" + k1 + "=" + v1 + "&" + k2 + "=" + v2) == [(k1, v1), (k2, v2)]
  {
    var pairs := [(k1, v1), (k2, v2)];
    var ps := Pieces(pairs);
    assert Join(ps, '&') == ps[0] + ['&'] + ps[1];
    assert path + "?" + k1 + "=" + v1 + "&" + k2 + "=" + v2 == path + "?" + Encode(pairs);
    QueryRoundTrip(path, pairs);
  }

  /** The three-parameter case. */
  lemma ThreePairs(path: string, k1: string, v1: string, k2: string, v2: string, k3: string, v3: string)
    requires '?' !in path && '=' !in k1 && '&' !in k1 && '&' !in v1 && '=' !in k2 && '&' !in k2 && '&' !in v2
    requires '=' !in k3 && '&' !in k3 && '&' !in v3
    ensures QueryOf(path + "?" + k1 + "=" + v1 + "&" + k2 + "=" + v2 + "&" + k3 + "=" + v3) == [(k1, v1), (k2, v2), (k3, v3)]
  {
    var pairs := [(k1, v1), (k2, v2), (k3, v3)];
    var ps := Pieces(pairs);
    assert Join(ps[1..], '&') == ps[1] + ['&'] + ps[2] by {
      assert ps[1..][1..] == [ps[2]];
    }
    assert Join(ps, '&') == ps[0] + ['&'] + Join(ps[1..], '&');
    assert path + "?" + k1 + "=" + v1 + "&" + k2 + "=" + v2 + "&" + k3 + "=" + v3 == path + "?" + Encode(pairs);
    QueryRoundTrip(path, pairs);
  }
}
