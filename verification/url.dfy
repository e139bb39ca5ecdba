/** URL parsing and its recomposition. A text is the contents of a C string, without its
    terminating NUL. */
module UrlParsing {
  import opened Common

  datatype Url = Url(scheme: string, host: string, port: string, path: string, query: string, fragment: string)

  const MARK := "://"

  // ---------------------------------------------------------------- what a text parses to

  // The length of the longest prefix of s without any of the stops.
  function Span(s: string, stops: set<char>): (n: nat)
    ensures n <= |s|
    ensures forall i :: 0 <= i < n ==> s[i] !in stops
    ensures n < |s| ==> s[n] in stops
  {
    if s == [] || s[0] in stops then 0 else 1 + Span(s[1..], stops)
  }

  predicate MarkAt(s: string, i: nat) {
    i + 3 <= |s| && s[i] == ':' && s[i + 1] == '/' && s[i + 2] == '/'
  }

  // The position of the first mark.
  function Find(s: string): (r: Option<nat>)
    ensures r.Some? ==> MarkAt(s, r.value) && forall i :: 0 <= i < r.value ==> !MarkAt(s, i)
    ensures r.None? ==> forall i: nat :: !MarkAt(s, i)
  {
    if |s| < 3 then None
    else if MarkAt(s, 0) then Some(0)
    else
      assert forall i: nat :: i > 0 ==> MarkAt(s, i) == MarkAt(s[1..], i - 1);
      match Find(s[1..])
      case None => None
      case Some(i) => Some(i + 1)
  }

  const AFTER_HOST := {':', '/', '?', '#'}
  const AFTER_PORT := {'/', '?', '#'}
  const AFTER_PATH := {'?', '#'}
  const AFTER_QUERY := {'#'}

  function Before(s: string, stops: set<char>): string {
    s[..Span(s, stops)]
  }

  function From(s: string, stops: set<char>): string {
    s[Span(s, stops)..]
  }

  // What follows the scheme: host, port and the rest.
  function Authority(s: string): (string, string, string) {
    var (port, rest) := TakePort(From(s, AFTER_HOST));
    (Before(s, AFTER_HOST), port, rest)
  }

  function TakePort(s: string): (string, string) {
    if s != [] && s[0] == ':' then (Before(s[1..], AFTER_PORT), From(s[1..], AFTER_PORT)) else ("", s)
  }

  function TakeQuery(s: string): (string, string) {
    if s != [] && s[0] == '?' then (Before(s[1..], AFTER_QUERY), From(s[1..], AFTER_QUERY)) else ("", s)
  }

  function TakeFragment(s: string): string {
    if s != [] then s[1..] else ""
  }

  function Slash(s: string): string {
    if s != [] && s[0] != '/' then "/" else ""
  }

  // Path, query and fragment; a path that is there begins with a slash.
  function Tail(s: string): (string, string, string) {
    var (query, rest) := TakeQuery(From(s, AFTER_PATH));
    (Slash(s) + Before(s, AFTER_PATH), query, TakeFragment(rest))
  }

  function Parse(s: string): Url {
    match Find(s)
    case None =>
      var (path, query, fragment) := Tail(s);
      Url("", "", "", path, query, fragment)
    case Some(k) =>
      var (host, port, rest) := Authority(s[k + 3..]);
      var (path, query, fragment) := Tail(rest);
      Url(s[..k], host, port, path, query, fragment)
  }

  // Recomposition after section 5.3 of RFC 3986, with the port; empty parts are left out, but
  // a scheme always has its mark.
  function Led(lead: char, part: string): string {
    if part != "" then [lead] + part else ""
  }

  function RecomposeTail(u: Url): string {
    u.path + (Led('?', u.query) + Led('#', u.fragment))
  }

  function FromHost(u: Url): string {
    u.host + (Led(':', u.port) + RecomposeTail(u))
  }

  function Full(u: Url): string {
    u.scheme + MARK + FromHost(u)
  }

  function Recompose(u: Url): string {
    if u.scheme != "" then Full(u)
    else if u.host != "" || u.port != "" then "//" + FromHost(u)
    else RecomposeTail(u)
  }

  // ---------------------------------------------------------------- normalisation

  // The parts of a parsed tail: where each ends and how it begins.
  ghost predicate TailForm(path: string, query: string, fragment: string) {
    && (path != [] ==> path[0] == '/')
    && (forall i :: 0 <= i < |path| ==> path[i] !in AFTER_PATH)
    && (forall i :: 0 <= i < |query| ==> query[i] !in AFTER_QUERY)
    && (path == [] ==> query == [] && fragment == [])
  }

  lemma {:induction false} SpanIs(s: string, t: string, stops: set<char>)
    requires (forall i :: 0 <= i < |s| ==> s[i] !in stops) && (t != [] ==> t[0] in stops)
    ensures Span(s + t, stops) == |s| && (s + t)[..|s|] == s && (s + t)[|s|..] == t
  {
  }

  lemma {:induction false} TailHasForm(s: string)
    ensures var (path, query, fragment) := Tail(s); TailForm(path, query, fragment)
  {
  }

  lemma {:induction false} QueryRoundTrip(query: string, rest: string)
    requires (forall i :: 0 <= i < |query| ==> query[i] !in AFTER_QUERY) && (rest != [] ==> rest[0] == '#')
    ensures TakeQuery(Led('?', query) + rest) == (query, rest)
  {
    if query != "" {
      assert (Led('?', query) + rest)[1..] == query + rest;
      SpanIs(query, rest, AFTER_QUERY);
    } else {
      assert Led('?', query) + rest == rest;
    }
  }

  lemma {:induction false} TailRoundTrip(u: Url)
    requires TailForm(u.path, u.query, u.fragment)
    ensures Tail(RecomposeTail(u)) == (u.path, u.query, u.fragment)
  {
    var f := Led('#', u.fragment);
    var t := Led('?', u.query) + f;
    SpanIs(u.path, t, AFTER_PATH);
    QueryRoundTrip(u.query, f);
    assert u.path + t != [] ==> (u.path + t)[0] == '/';
    assert TakeFragment(f) == u.fragment && "" + u.path == u.path;
  }

  lemma {:induction false} AuthorityHasForm(s: string)
    ensures var (host, port, rest) := Authority(s);
      && (forall i :: 0 <= i < |host| ==> host[i] !in AFTER_HOST)
      && (forall i :: 0 <= i < |port| ==> port[i] !in AFTER_PORT)
      && (rest != [] ==> rest[0] in AFTER_PORT)
  {
  }

  lemma {:induction false} PortRoundTrip(port: string, rest: string)
    requires forall i :: 0 <= i < |port| ==> port[i] !in AFTER_PORT
    requires rest != [] ==> rest[0] in AFTER_PORT
    ensures TakePort(Led(':', port) + rest) == (port, rest)
  {
    if port != "" {
      assert (Led(':', port) + rest)[1..] == port + rest;
      SpanIs(port, rest, AFTER_PORT);
    } else {
      assert Led(':', port) + rest == rest;
    }
  }

  lemma {:induction false} AuthorityRoundTrip(host: string, port: string, rest: string)
    requires forall i :: 0 <= i < |host| ==> host[i] !in AFTER_HOST
    requires forall i :: 0 <= i < |port| ==> port[i] !in AFTER_PORT
    requires rest != [] ==> rest[0] in AFTER_PORT
    ensures Authority(host + (Led(':', port) + rest)) == (host, port, rest)
  {
    SpanIs(host, Led(':', port) + rest, AFTER_HOST);
    PortRoundTrip(port, rest);
  }

  predicate NoMark(s: string) {
    forall i: nat | i < |s| :: !MarkAt(s, i)
  }

  // A scheme without a mark is found in front of the mark, whatever follows.
  lemma {:induction false} FindScheme(scheme: string, t: string)
    requires NoMark(scheme)
    ensures var s := scheme + MARK + t; var k := |scheme|;
      Find(s) == Some(k) && s[..k] == scheme && s[k + 3..] == t
  {
    var s, k := scheme + MARK + t, |scheme|;
    assert MarkAt(s, k);
    forall i: nat | i < k ensures !MarkAt(s, i) {
      assert s[k] == ':' && s[k + 1] == '/';
      assert forall j :: 0 <= j < k ==> s[j] == scheme[j];
      assert !MarkAt(scheme, i);
    }
    assert Find(s).Some?;
  }

  // The parts a URL can have for its text to say what they are.
  ghost predicate WellFormed(u: Url) {
    && NoMark(u.scheme)
    && (forall i :: 0 <= i < |u.host| ==> u.host[i] !in AFTER_HOST)
    && (forall i :: 0 <= i < |u.port| ==> u.port[i] !in AFTER_PORT)
    && TailForm(u.path, u.query, u.fragment)
  }

  // Parsing undoes recomposition: every part comes back where it was.
  lemma {:induction false} ParseInvertsFull(u: Url)
    requires WellFormed(u)
    ensures Parse(Full(u)) == u && Find(Full(u)) == Some(|u.scheme|)
  {
    var tail := RecomposeTail(u);
    TailRoundTrip(u);
    assert tail != [] ==> tail[0] in AFTER_PORT;
    AuthorityRoundTrip(u.host, u.port, tail);
    FindScheme(u.scheme, FromHost(u));
  }

  // And what the parser makes of a text with a mark is well formed, be the scheme empty or not.
  lemma {:induction false} ParsedIsWellFormed(s: string, k: nat)
    requires Find(s) == Some(k)
    ensures WellFormed(Parse(s))
  {
    AuthorityHasForm(s[k + 3..]);
    TailHasForm(Authority(s[k + 3..]).2);
    PrefixHasNone(s, k);
  }

  lemma {:induction false} PrefixHasNone(s: string, k: nat)
    requires Find(s) == Some(k)
    ensures NoMark(s[..k])
  {
    forall i: nat | i < k ensures !MarkAt(s[..k], i) {
      assert !MarkAt(s, i);
    }
  }

  // A text that begins like a path has no host and no port, unless it has a scheme.
  lemma {:induction false} NoAuthority(t: string)
    requires t != "" ==> t[0] in AFTER_PORT
    ensures var u := Parse(t);
      if NoMark(t) then u.scheme == u.host == u.port == "" && (u.path, u.query, u.fragment) == Tail(t) else u.scheme != ""
  {
    match Find(t)
    case None =>
    case Some(k) => assert MarkAt(t, k) && k > 0;
  }

  // Without a scheme, a host and a port that are there are written but not read back, and
  // parsing undoes recomposition as long as there are none and what is recomposed does not
  // read as if it had a scheme.
  lemma {:induction false} PlainRoundTrip(u: Url)
    requires u.scheme == "" && TailForm(u.path, u.query, u.fragment)
    ensures Parse(Recompose(u)) == u <==> u.host == "" && u.port == "" && NoMark(RecomposeTail(u))
  {
    var t := Recompose(u);
    if t != "" {
      assert t[0] in AFTER_PORT;
      NoAuthority(t);
    }
    if u.host == "" && u.port == "" { TailRoundTrip(u); }
  }

  // A mark never reaches into a query or a fragment, nor does it begin before a character
  // that is not a colon.
  lemma {:induction false} MarkSplits(a: string, b: string)
    requires b != [] ==> b[0] in AFTER_PATH
    ensures NoMark(a + b) <==> NoMark(a) && NoMark(b)
  {
    var s := a + b;
    assert forall i :: 0 <= i < |b| ==> s[|a| + i] == b[i];
    forall i: nat | i < |a| && MarkAt(a, i) ensures !NoMark(s) { assert MarkAt(s, i); }
    forall i: nat | i < |b| && MarkAt(b, i) ensures !NoMark(s) { assert MarkAt(s, |a| + i); }
    forall i: nat | i < |s| && MarkAt(s, i) ensures !(NoMark(a) && NoMark(b)) {
      if i < |a| { assert MarkAt(a, i); } else { assert MarkAt(b, i - |a|); }
    }
  }

  lemma {:induction false} MarkAfter(c: char, t: string)
    requires c != ':'
    ensures NoMark([c] + t) <==> NoMark(t)
  {
    assert forall i: nat :: MarkAt([c] + t, i + 1) == MarkAt(t, i);
    forall i: nat | i < |t| && MarkAt(t, i) ensures !NoMark([c] + t) { assert MarkAt([c] + t, i + 1); }
    forall i: nat | i < |[c] + t| && MarkAt([c] + t, i) ensures !NoMark(t) { assert MarkAt(t, i - 1); }
  }

  // The marks of a recomposed tail are those of its path, its query and its fragment.
  lemma {:induction false} MarkInParts(u: Url)
    ensures NoMark(RecomposeTail(u)) <==> NoMark(u.path) && NoMark(u.query) && NoMark(u.fragment)
  {
    var q, f := Led('?', u.query), Led('#', u.fragment);
    MarkSplits(u.path, q + f);
    MarkSplits(q, f);
    MarkAfter('?', u.query);
    MarkAfter('#', u.fragment);
  }

  // And so are those of the text they were parsed from.
  lemma {:induction false} MarkInTail(s: string)
    ensures var (path, query, fragment) := Tail(s);
      NoMark(s) <==> NoMark(path) && NoMark(query) && NoMark(fragment)
  {
    var a, r := Before(s, AFTER_PATH), From(s, AFTER_PATH);
    assert s == a + r;
    MarkSplits(a, r);
    MarkAfter('/', a);
    assert "" + a == a && Slash(s) + a == if Slash(s) == "" then a else ['/'] + a;
    MarkInQuery(r);
  }

  lemma {:induction false} MarkInQuery(r: string)
    requires r != [] ==> r[0] in AFTER_PATH
    ensures var (query, rest) := TakeQuery(r); NoMark(r) <==> NoMark(query) && NoMark(TakeFragment(rest))
  {
    var (query, rest) := TakeQuery(r);
    if r != [] && r[0] == '?' {
      assert r == [r[0]] + r[1..] && r[1..] == query + rest;
      MarkAfter('?', r[1..]);
      MarkSplits(query, rest);
    }
    if rest != [] {
      assert rest == [rest[0]] + rest[1..];
      MarkAfter(rest[0], rest[1..]);
    }
  }

  // What follows a mark at the very start, without the colon that may lead an empty port.
  function AfterMark(s: string): string
    requires MarkAt(s, 0)
  {
    if |s| > 3 && s[3] == ':' then s[4..] else s[3..]
  }

  // Normalisation is idempotent on exactly the texts whose first mark is not at the very
  // start, and on those where neither a host nor a port nor another mark follows it.
  lemma {:induction false} NormalisationIdempotent(s: string)
    ensures var u := Parse(s);
      Parse(Recompose(u)) == u <==>
        Find(s) != Some(0) || (var t := AfterMark(s); NoMark(t) && (t != "" ==> t[0] in AFTER_PORT))
  {
    var u := Parse(s);
    match Find(s)
    case None =>
      TailHasForm(s);
      PlainRoundTrip(u);
      MarkInParts(u);
      MarkInTail(s);
    case Some(k) =>
      if k > 0 {
        ParsedIsWellFormed(s, k);
        ParseInvertsFull(u);
      } else {
        var (host, port, rest) := Authority(s[3..]);
        TailHasForm(rest);
        PlainRoundTrip(u);
        MarkInParts(u);
        MarkInTail(rest);
        EmptyAuthority(s);
      }
  }

  lemma {:induction false} EmptyAuthority(s: string)
    requires MarkAt(s, 0)
    ensures var (host, port, rest) := Authority(s[3..]); var t := AfterMark(s);
      host == port == "" <==> (t != "" ==> t[0] in AFTER_PORT) && rest == t
  {
    var a := s[3..];
    assert a != [] && a[0] == ':' ==> a[1..] == s[4..];
  }

  // The rest does occur: a host or a port that follows a mark at the start is parsed, but
  // without a scheme in front the text recomposed from it reads as a path.
  lemma {:induction false} MarkAtStartLoses(u: Url)
    requires WellFormed(u) && u.scheme == "" && (u.host != "" || u.port != "")
    ensures Find(Full(u)) == Some(0) && Parse(Full(u)) == u && Parse(Recompose(u)) != u
  {
    ParseInvertsFull(u);
    PlainRoundTrip(u);
  }

  // ---------------------------------------------------------------- the parser

  // A parsed URL whose fields are filled in place.
  class UrlRecord {
    var scheme: string
    var host: string
    var port: string
    var path: string
    var query: string
    var fragment: string

    function Value(): Url
      reads this
    {
      Url(scheme, host, port, path, query, fragment)
    }

    constructor ()
      ensures Value() == Url("", "", "", "", "", "")
    {
      scheme, host, port, path, query, fragment := "", "", "", "", "", "";
    }

    // Append to `part` from position i on until a stop or the end of the text.
    static method Copy(s: string, i: nat, stops: set<char>, part: string) returns (j: nat, whole: string)
      requires i <= |s|
      ensures i <= j <= |s| && whole == part + Before(s[i..], stops) && s[j..] == From(s[i..], stops)
    {
      j, whole := i, part;
      while j < |s| && s[j] !in stops
        invariant i <= j <= |s| && whole == part + s[i..j]
        invariant forall k :: i <= k < j ==> s[k] !in stops
      {
        whole := whole + [s[j]];
        j := j + 1;
      }
      SpanIs(s[i..j], s[j..], stops);
      assert s[i..j] + s[j..] == s[i..];
    }

    method ParseUrl(s: string)
      modifies this
      ensures Value() == Parse(s)
    {
      scheme, host, port, path, query, fragment := "", "", "", "", "", "";
      var i := 0;
      var mark := Find(s);
      if mark.Some? {
        scheme := s[..mark.value];
        i := ParseAuthority(s, mark.value + 3);
      }
      ParseTail(s, i);
      assert s[0..] == s;
    }

    method ParseAuthority(s: string, start: nat) returns (i: nat)
      requires start <= |s| && host == port == ""
      modifies this`host, this`port
      ensures i <= |s| && Authority(s[start..]) == (host, port, s[i..])
    {
      i, host := Copy(s, start, AFTER_HOST, "");
      assert host == Before(s[start..], AFTER_HOST);
      i := ParsePort(s, i);
    }

    method ParsePort(s: string, start: nat) returns (i: nat)
      requires start <= |s| && port == ""
      modifies this`port
      ensures i <= |s| && TakePort(s[start..]) == (port, s[i..])
    {
      i := start;
      if i < |s| && s[i] == ':' {
        i := i + 1;
        assert s[start..][1..] == s[i..];
        i, port := Copy(s, i, AFTER_PORT, "");
        assert port == Before(s[start..][1..], AFTER_PORT);
      }
    }

    // The part of the parser that runs with and without a scheme.
    method ParseTail(s: string, start: nat)
      requires start <= |s| && path == query == fragment == ""
      modifies this`path, this`query, this`fragment
      ensures (path, query, fragment) == Tail(s[start..])
    {
      var i := start;
      if i < |s| && s[i] != '/' {
        path := path + ['/'];
      }
      assert path == Slash(s[start..]);
      i, path := Copy(s, i, AFTER_PATH, path);
      i := ParseQuery(s, i);
      LeftIsFragment(s[start..]);
      ParseFragment(s, i);
    }

    method ParseQuery(s: string, start: nat) returns (i: nat)
      requires start <= |s| && query == ""
      modifies this`query
      ensures i <= |s| && TakeQuery(s[start..]) == (query, s[i..])
    {
      i := start;
      if i < |s| && s[i] == '?' {
        i := i + 1;
        assert s[start..][1..] == s[i..];
        i, query := Copy(s, i, AFTER_QUERY, "");
        assert query == Before(s[start..][1..], AFTER_QUERY);
      }
    }

    method ParseFragment(s: string, start: nat)
      requires start <= |s| && fragment == "" && (start < |s| ==> s[start] == '#')
      modifies this`fragment
      ensures fragment == TakeFragment(s[start..])
    {
      var i := start;
      if i < |s| && s[i] == '#' {
        i := i + 1;
        assert s[start..][1..] == s[i..];
        SpanIs(s[i..], "", {});
        assert s[i..] + "" == s[i..];
        i, fragment := Copy(s, i, {}, "");
      }
    }
  }

  // After path and query, what is left starts a fragment.
  lemma {:induction false} LeftIsFragment(s: string)
    ensures var rest := TakeQuery(From(s, AFTER_PATH)).1; rest != [] ==> rest[0] == '#'
  {
  }
}
