/** The Cookie request header that a load attaches to every track: each entry
    the cookie store returns for the first track's URL is written `name=value`,
    and the entries are joined with `"; "` (the cookie-string of section 5.4 of
    RFC 6265). Beside the formatter sits its inverse, a parser for that header,
    and the round trip between the two. */
module Cookies {

  /** One entry of the cookie store's answer: a cookie's name and value. */
  datatype Cookie = Cookie(name: string, value: string)

  /** What goes between two `name=value` pairs. */
  const Separator: string := "; "

  /** The condition the round trip needs: no `=` or `;` in the name and no `;`
      in the value. It is weaker than the token and cookie-value grammar of
      section 4.1.1 of RFC 6265, which every cookie that grammar allows meets. */
  predicate WellFormed(c: Cookie)
  {
    '=' !in c.name && ';' !in c.name && ';' !in c.value
  }

  /** `${name}=${cookie.value}` */
  function Pair(c: Cookie): string
  {
    c.name + "=" + c.value
  }

  /** `Array.prototype.join`: the parts in order, `sep` between neighbours. */
  function Join(parts: seq<string>, sep: string): string
  {
    if |parts| == 0 then ""
    else if |parts| == 1 then parts[0]
    else parts[0] + sep + Join(parts[1..], sep)
  }

  function Pairs(cs: seq<Cookie>): seq<string>
  {
    seq(|cs|, i requires 0 <= i < |cs| => Pair(cs[i]))
  }

  /** The header value built from the store's entries, in their order. It is
      empty exactly when there are no entries, since every pair holds a `=`. */
  function CookieHeader(cs: seq<Cookie>): (h: string)
    ensures h == "" <==> cs == []
  {
    var ps := Pairs(cs);
    assert cs != [] ==> |ps[0]| > 0;
    Join(ps, Separator)
  }

  /** Cuts a header at every `"; "`; there is always at least one piece. */
  function Split(h: string): (parts: seq<string>)
    ensures |parts| >= 1
    decreases |h|
  {
    if |h| == 0 then [""]
    else if |h| >= 2 && h[0] == ';' && h[1] == ' ' then [""] + Split(h[2..])
    else
      var rest := Split(h[1..]);
      [[h[0]] + rest[0]] + rest[1..]
  }

  /** Reads `name=value`, cutting at the first `=`. */
  function ParsePair(seg: string): Cookie
    decreases |seg|
  {
    if |seg| == 0 then Cookie("", "")
    else if seg[0] == '=' then Cookie("", seg[1..])
    else
      var c := ParsePair(seg[1..]);
      Cookie([seg[0]] + c.name, c.value)
  }

  /** The cookies a header names, in order. */
  function ParseCookieHeader(h: string): seq<Cookie>
  {
    var parts := Split(h);
    seq(|parts|, i requires 0 <= i < |parts| => ParsePair(parts[i]))
  }

  lemma {:induction false} SplitPlain(p: string)
    requires ';' !in p
    ensures Split(p) == [p]
    decreases |p|
  {
    if |p| > 0 {
      SplitPlain(p[1..]);
      assert [p[0]] + p[1..] == p;
    }
  }

  lemma {:induction false} SplitCons(p: string, rest: string)
    requires ';' !in p
    ensures Split(p + Separator + rest) == [p] + Split(rest)
    decreases |p|
  {
    var h := p + Separator + rest;
    if |p| == 0 {
      assert h == "; " + rest;
      assert h[2..] == rest;
    } else {
      assert h[0] == p[0];
      assert h[1..] == p[1..] + Separator + rest;
      SplitCons(p[1..], rest);
      assert [p[0]] + p[1..] == p;
    }
  }

  /** Splitting undoes joining, as long as no part holds a `;`. */
  lemma {:induction false} SplitJoin(parts: seq<string>)
    requires |parts| >= 1
    requires forall i :: 0 <= i < |parts| ==> ';' !in parts[i]
    ensures Split(Join(parts, Separator)) == parts
    decreases |parts|
  {
    if |parts| == 1 {
      SplitPlain(parts[0]);
    } else {
      SplitCons(parts[0], Join(parts[1..], Separator));
      SplitJoin(parts[1..]);
      assert [parts[0]] + parts[1..] == parts;
    }
  }

  /** Reading `name=value` back gives the cookie, as long as the name holds no `=`. */
  lemma {:induction false} ParsePairOfPair(name: string, value: string)
    requires '=' !in name
    ensures ParsePair(name + "=" + value) == Cookie(name, value)
    decreases |name|
  {
    var seg := name + "=" + value;
    if |name| == 0 {
      assert seg[1..] == value;
    } else {
      assert seg[0] == name[0];
      assert seg[1..] == name[1..] + "=" + value;
      ParsePairOfPair(name[1..], value);
      assert [name[0]] + name[1..] == name;
    }
  }

  /** Parsing the header gives back the store's entries, in order, whenever
      there is at least one entry (with none the header is omitted) and each is
      well formed. */
  lemma CookieHeaderRoundTrip(cs: seq<Cookie>)
    requires cs != []
    requires forall i :: 0 <= i < |cs| ==> WellFormed(cs[i])
    ensures ParseCookieHeader(CookieHeader(cs)) == cs
  {
    var ps := Pairs(cs);
    forall i | 0 <= i < |ps| ensures ';' !in ps[i] {
      assert ps[i] == cs[i].name + "=" + cs[i].value;
    }
    SplitJoin(ps);
    var parsed := ParseCookieHeader(CookieHeader(cs));
    assert |parsed| == |cs|;
    forall i | 0 <= i < |cs| ensures parsed[i] == cs[i] {
      ParsePairOfPair(cs[i].name, cs[i].value);
    }
  }
}
