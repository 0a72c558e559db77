/**
 * The page address as the application sees it: an origin, a path, the query
 * parameters as an ordered list of key/value pairs, and a fragment.
 *
 * The query list is what the browser's URLSearchParams object holds. Turning
 * it into the text after `?` and back is modelled as splitting on `&` and on
 * the first `=`; percent-encoding is not modelled, so the round trip is stated
 * for keys and values made of characters that encoding leaves alone.
 */
module Urls {
  import opened Wrappers

  datatype Param = Param(key: string, value: string)

  datatype Url = Url(origin: string, pathname: string, query: seq<Param>, hash: string)

  /** The value of the first parameter named `key`, as `URLSearchParams.get` returns it. */
  function Get(q: seq<Param>, key: string): (v: Option<string>)
    ensures v.None? <==> forall i :: 0 <= i < |q| ==> q[i].key != key
    ensures v.Some? ==>
      exists i :: 0 <= i < |q| && q[i] == Param(key, v.value) &&
        forall j :: 0 <= j < i ==> q[j].key != key
  {
    if q == [] then None
    else if q[0].key == key then Some(q[0].value)
    else Get(q[1..], key)
  }

  /** Characters that form-urlencoding passes through unchanged. */
  predicate UrlSafeChar(c: char) {
    ('A' <= c <= 'Z') || ('a' <= c <= 'z') || ('0' <= c <= '9') ||
    c == '*' || c == '-' || c == '.' || c == '_'
  }

  predicate UrlSafe(s: string) {
    forall i :: 0 <= i < |s| ==> UrlSafeChar(s[i])
  }

  /** Index of the first `c` in `s`, or -1 when `s` has none. */
  function IndexOf(s: string, c: char): (i: int)
    ensures -1 <= i < |s|
    ensures i == -1 <==> c !in s
    ensures 0 <= i ==> s[i] == c && c !in s[..i]
  {
    if |s| == 0 then -1
    else if s[0] == c then 0
    else
      var j := IndexOf(s[1..], c);
      if j < 0 then -1 else j + 1
  }

  /** Cut `s` at every `sep`: the pieces between separators, at least one. */
  function Split(s: string, sep: char): (parts: seq<string>)
    ensures |parts| >= 1
    ensures forall k :: 0 <= k < |parts| ==> sep !in parts[k]
    decreases |s|
  {
    var i := IndexOf(s, sep);
    if i < 0 then [s] else [s[..i]] + Split(s[i + 1..], sep)
  }

  /** Glue pieces back together with `sep` between neighbours. */
  function Join(parts: seq<string>, sep: char): string
    requires |parts| >= 1
  {
    if |parts| == 1 then parts[0] else parts[0] + [sep] + Join(parts[1..], sep)
  }

  /** One parameter as it appears in the query text. */
  function PairText(p: Param): string {
    p.key + "=" + p.value
  }

  /** The query text after `?`: `key=value` pairs joined by `&`. */
  function Serialize(q: seq<Param>): string
    requires |q| >= 1
  {
    Join(seq(|q|, i requires 0 <= i < |q| => PairText(q[i])), '&')
  }

  /** The search part of an address: empty when there are no parameters. */
  function SearchString(q: seq<Param>): (s: string)
    ensures s == "" <==> q == []
  {
    if q == [] then "" else "?" + Serialize(q)
  }

  /** One non-empty piece of query text: name before the first `=`, value after it. */
  function ParsePair(piece: string): (p: Param)
    ensures '=' in piece ==> PairText(p) == piece
    ensures '=' !in piece ==> p == Param(piece, "")
  {
    var i := IndexOf(piece, '=');
    if i < 0 then Param(piece, "")
    else
      assert piece == piece[..i] + "=" + piece[i + 1..];
      Param(piece[..i], piece[i + 1..])
  }

  /** The pairs of a list of pieces, skipping empty pieces. */
  function ParsePieces(pieces: seq<string>): seq<Param> {
    if pieces == [] then []
    else if pieces[0] == "" then ParsePieces(pieces[1..])
    else [ParsePair(pieces[0])] + ParsePieces(pieces[1..])
  }

  /** What `new URLSearchParams(search)` holds: a leading `?` is dropped, then the text is split. */
  function ParseSearch(search: string): seq<Param> {
    var body := if |search| > 0 && search[0] == '?' then search[1..] else search;
    ParsePieces(Split(body, '&'))
  }

  /** The whole address as text, as `URL.toString()` writes it. */
  function Href(u: Url): string {
    u.origin + u.pathname + SearchString(u.query) + u.hash
  }

  /** The address `history.replaceState` installs when handed just the path: no query, no fragment. */
  function PathOnly(u: Url): (r: Url)
    ensures r.origin == u.origin && r.pathname == u.pathname
    ensures r.query == [] && r.hash == ""
    ensures forall key :: Get(r.query, key).None?
  {
    Url(u.origin, u.pathname, [], "")
  }

  // ---------------------------------------------------------------------------
  // Round trip of the query text
  // ---------------------------------------------------------------------------

  lemma {:induction false} IndexOfAfterPrefix(a: string, c: char, b: string)
    requires c !in a
    ensures IndexOf(a + [c] + b, c) == |a|
  {
    var s := a + [c] + b;
    assert s[|a|] == c;
    assert s[..|a|] == a;
  }

  /** Splitting text that starts with a separator-free piece and a separator peels that piece off. */
  lemma SplitAfterPrefix(a: string, sep: char, b: string)
    requires sep !in a
    ensures Split(a + [sep] + b, sep) == [a] + Split(b, sep)
  {
    var s := a + [sep] + b;
    IndexOfAfterPrefix(a, sep, b);
    assert s[..|a|] == a;
    assert s[|a| + 1..] == b;
  }

  lemma {:induction false} SplitJoin(parts: seq<string>, sep: char)
    requires |parts| >= 1
    requires forall k :: 0 <= k < |parts| ==> sep !in parts[k]
    ensures Split(Join(parts, sep), sep) == parts
    decreases |parts|
  {
    if |parts| == 1 {
      assert sep !in parts[0];
    } else {
      var rest := Join(parts[1..], sep);
      assert Join(parts, sep) == parts[0] + [sep] + rest;
      SplitAfterPrefix(parts[0], sep, rest);
      SplitJoin(parts[1..], sep);
      assert parts == [parts[0]] + parts[1..];
    }
  }

  lemma UrlSafeExcludes(s: string)
    requires UrlSafe(s)
    ensures '&' !in s && '=' !in s && '?' !in s
  {
    forall i | 0 <= i < |s| ensures s[i] != '&' && s[i] != '=' && s[i] != '?' {
      assert UrlSafeChar(s[i]);
    }
  }

  /** A pair whose key and value are URL-safe reads back as itself. */
  lemma {:induction false} ParsePairText(p: Param)
    requires UrlSafe(p.key) && UrlSafe(p.value)
    ensures ParsePair(PairText(p)) == p
    ensures '&' !in PairText(p) && PairText(p) != ""
  {
    UrlSafeExcludes(p.key);
    UrlSafeExcludes(p.value);
    var t := PairText(p);
    IndexOfAfterPrefix(p.key, '=', p.value);
    assert t == p.key + ['='] + p.value;
    assert t[..|p.key|] == p.key;
    assert t[|p.key| + 1..] == p.value;
    assert t[|p.key|] == '=';
  }

  lemma {:induction false} ParsePiecesOfPairs(q: seq<Param>)
    requires forall i :: 0 <= i < |q| ==> UrlSafe(q[i].key) && UrlSafe(q[i].value)
    ensures ParsePieces(seq(|q|, i requires 0 <= i < |q| => PairText(q[i]))) == q
    decreases |q|
  {
    var pieces := seq(|q|, i requires 0 <= i < |q| => PairText(q[i]));
    if q != [] {
      ParsePairText(q[0]);
      var tail := seq(|q| - 1, i requires 0 <= i < |q| - 1 => PairText(q[1..][i]));
      assert pieces[1..] == tail;
      ParsePiecesOfPairs(q[1..]);
      assert q == [q[0]] + q[1..];
    }
  }

  /**
   * Serializing URL-safe parameters and parsing the search text again gives
   * back exactly the same list, in the same order.
   */
  lemma {:induction false} ParseSearchRoundTrip(q: seq<Param>)
    requires forall i :: 0 <= i < |q| ==> UrlSafe(q[i].key) && UrlSafe(q[i].value)
    ensures ParseSearch(SearchString(q)) == q
  {
    if q == [] {
      assert Split("", '&') == [""];
      assert ParsePieces([""]) == ParsePieces([]);
    } else {
      var pieces := seq(|q|, i requires 0 <= i < |q| => PairText(q[i]));
      forall k | 0 <= k < |pieces| ensures '&' !in pieces[k] {
        ParsePairText(q[k]);
      }
      SplitJoin(pieces, '&');
      var s := SearchString(q);
      assert s[1..] == Serialize(q);
      ParsePiecesOfPairs(q);
    }
  }
}
