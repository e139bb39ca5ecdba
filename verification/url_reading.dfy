/** What the URL parser makes of a text, said of the text itself: how it is cut into parts, and
    that there is no other way to cut it. */
module UrlReading {
  import opened Common
  import opened UrlParsing

  // Which separators occur in a text, and the part of it that is its path.
  datatype Cut = Cut(mark: bool, colon: bool, path: string, question: bool, hash: bool)

  function If(there: bool, text: string): string {
    if there then text else ""
  }

  function Rest(u: Url, c: Cut): string {
    c.path + (If(c.question, "?") + (u.query + (If(c.hash, "#") + u.fragment)))
  }

  function Whole(u: Url, c: Cut): string {
    u.scheme + (If(c.mark, "://") + (u.host + (If(c.colon, ":") + (u.port + Rest(u, c)))))
  }

  // No mark begins before position n.
  ghost predicate Unmarked(s: string, n: nat) {
    forall i :: 0 <= i < n && i < |s| - 2 ==> !(s[i] == ':' && s[i + 1] == '/' && s[i + 2] == '/')
  }

  // The first mark ends the scheme, the colon after it the host; path and query end where the
  // next separator begins. What is not led by its separator is empty.
  ghost predicate Separated(s: string, u: Url, c: Cut) {
    && Unmarked(s, if c.mark then |u.scheme| else |s|)
    && (forall x :: x in u.host ==> x !in {':', '/', '?', '#'})
    && (forall x :: x in u.port ==> x !in {'/', '?', '#'})
    && (forall x :: x in c.path ==> x !in {'?', '#'})
    && '#' !in u.query
    && (!c.mark ==> u.scheme == u.host == "" && !c.colon)
    && (!c.colon ==> u.port == "")
    && (!c.question ==> u.query == "")
    && (!c.hash ==> u.fragment == "")
    && (c.mark && Rest(u, c) != "" ==> Rest(u, c)[0] in {'/', '?', '#'})
  }

  // The parts of u and their separators make up the text s, whole and in order. The path is that
  // of the text, behind one slash if what follows the authority is there and begins with none.
  ghost predicate Reads(s: string, u: Url, c: Cut) {
    && s == Whole(u, c)
    && Separated(s, u, c)
    && u.path == If(Rest(u, c) != "" && Rest(u, c)[0] != '/', "/") + c.path
  }

  // ---------------------------------------------------------------- every text is cut so

  lemma {:induction false} SpanSplits(s: string, stops: set<char>)
    ensures s == Before(s, stops) + From(s, stops)
    ensures forall x :: x in Before(s, stops) ==> x !in stops
    ensures From(s, stops) != "" ==> From(s, stops)[0] in stops
  {
  }

  lemma {:induction false} QueryIsCut(r: string) returns (question: bool, hash: bool)
    requires r != "" ==> r[0] in AFTER_PATH
    ensures var (query, left) := TakeQuery(r);
      && r == If(question, "?") + (query + (If(hash, "#") + TakeFragment(left)))
      && '#' !in query && (!question ==> query == "") && (!hash ==> TakeFragment(left) == "")
  {
    var (query, left) := TakeQuery(r);
    question, hash := r != "" && r[0] == '?', left != "";
    if question {
      SpanSplits(r[1..], AFTER_QUERY);
      assert r == "?" + r[1..];
    }
    assert left == If(hash, "#") + TakeFragment(left) by {
      if hash { assert left == "#" + left[1..]; }
    }
  }

  lemma {:induction false} RestIsCut(s: string) returns (c: Cut)
    ensures var (path, query, fragment) := Tail(s); var u := Url("", "", "", path, query, fragment);
      && s == Rest(u, c) && !c.mark && !c.colon
      && path == If(s != "" && s[0] != '/', "/") + c.path
      && (forall x :: x in c.path ==> x !in {'?', '#'}) && '#' !in query
      && (!c.question ==> query == "") && (!c.hash ==> fragment == "")
  {
    SpanSplits(s, AFTER_PATH);
    var question, hash := QueryIsCut(From(s, AFTER_PATH));
    c := Cut(false, false, Before(s, AFTER_PATH), question, hash);
  }

  lemma {:induction false} AuthorityIsCut(s: string) returns (colon: bool)
    ensures var (host, port, rest) := Authority(s);
      && s == host + (If(colon, ":") + (port + rest))
      && (forall x :: x in host ==> x !in {':', '/', '?', '#'})
      && (forall x :: x in port ==> x !in {'/', '?', '#'})
      && (!colon ==> port == "")
      && (rest != "" ==> rest[0] in {'/', '?', '#'})
  {
    var r := From(s, AFTER_HOST);
    colon := r != "" && r[0] == ':';
    SpanSplits(s, AFTER_HOST);
    if colon {
      SpanSplits(r[1..], AFTER_PORT);
      assert r == ":" + r[1..];
    }
  }

  lemma {:induction false} FindIsFirst(s: string)
    ensures match Find(s)
            case None => Unmarked(s, |s|)
            case Some(k) => Unmarked(s, k) && k + 3 <= |s| && s == s[..k] + ("://" + s[k + 3..])
  {
    var n := match Find(s) case None => |s| case Some(k) => k;
    forall i | 0 <= i < n && i < |s| - 2 ensures !(s[i] == ':' && s[i + 1] == '/' && s[i + 2] == '/') {
      assert !MarkAt(s, i);
    }
  }

  lemma {:induction false} ParseReads(s: string) returns (c: Cut)
    ensures Reads(s, Parse(s), c)
  {
    FindIsFirst(s);
    match Find(s)
    case None =>
      c := RestIsCut(s);
      var u := Parse(s);
      assert Rest(u, c) == s;
      assert Whole(u, c) == s;
    case Some(k) =>
      c := MarkedReads(s, k);
  }

  lemma {:induction false} MarkedReads(s: string, k: nat) returns (c: Cut)
    requires Find(s) == Some(k) && Unmarked(s, k) && s == s[..k] + ("://" + s[k + 3..])
    ensures Reads(s, Parse(s), c)
  {
    var u := Parse(s);
    var (host, port, rest) := Authority(s[k + 3..]);
    var d := RestIsCut(rest);
    var colon := AuthorityIsCut(s[k + 3..]);
    c := d.(mark := true, colon := colon);
    assert Rest(u, c) == rest;
    Assembled(s, u, c, s[k + 3..]);
    assert |u.scheme| == k && u.host == host && u.port == port;
    assert Separated(s, u, c);
  }

  lemma {:induction false} Assembled(s: string, u: Url, c: Cut, after: string)
    requires c.mark && s == u.scheme + ("://" + after)
    requires after == u.host + (If(c.colon, ":") + (u.port + Rest(u, c)))
    ensures s == Whole(u, c)
  {
  }

  // ---------------------------------------------------------------- and in no other way

  lemma {:induction false} SpanOnly(s: string, t: string, stops: set<char>)
    requires (forall x :: x in s ==> x !in stops) && (t != "" ==> t[0] in stops)
    ensures Before(s + t, stops) == s && From(s + t, stops) == t
  {
    SpanIs(s, t, stops);
  }

  lemma {:induction false} RestOnly(s: string, u: Url, c: Cut)
    requires Separated(s, u, c)
    ensures var rest := Rest(u, c);
      Tail(rest) == (If(rest != "" && rest[0] != '/', "/") + c.path, u.query, u.fragment)
  {
    var f := If(c.hash, "#") + u.fragment;
    var q := If(c.question, "?") + (u.query + f);
    assert q != "" ==> q[0] in AFTER_PATH;
    SpanOnly(c.path, q, AFTER_PATH);
    assert TakeQuery(q) == (u.query, f) by {
      if c.question {
        assert q[1..] == u.query + f;
        SpanOnly(u.query, f, AFTER_QUERY);
      } else {
        assert q == f;
      }
    }
    assert c.hash ==> f[1..] == u.fragment;
  }

  lemma {:induction false} AuthorityOnly(u: Url, c: Cut)
    requires c.mark && Separated(Whole(u, c), u, c)
    ensures Authority(u.host + (If(c.colon, ":") + (u.port + Rest(u, c)))) == (u.host, u.port, Rest(u, c))
  {
    var rest := Rest(u, c);
    var p := If(c.colon, ":") + (u.port + rest);
    assert p != "" ==> p[0] in AFTER_HOST;
    SpanOnly(u.host, p, AFTER_HOST);
    if c.colon {
      assert p[1..] == u.port + rest;
      SpanOnly(u.port, rest, AFTER_PORT);
    } else {
      assert p == rest;
    }
  }

  lemma {:induction false} FirstIsFound(scheme: string, after: string)
    requires Unmarked(scheme + ("://" + after), |scheme|)
    ensures var s, k := scheme + ("://" + after), |scheme|;
      Find(s) == Some(k) && s[..k] == scheme && s[k + 3..] == after
  {
    var s, k := scheme + ("://" + after), |scheme|;
    assert MarkAt(s, k);
    forall i: nat | i < k ensures !MarkAt(s, i) {
      assert i < |s| - 2;
    }
  }

  lemma {:induction false} NoneIsFound(s: string)
    requires Unmarked(s, |s|)
    ensures Find(s) == None
  {
    forall i: nat ensures !MarkAt(s, i) {
      assert MarkAt(s, i) ==> i < |s| - 2;
    }
  }

  lemma {:induction false} MarkedOnly(s: string, u: Url, rest: string)
    requires Find(s) == Some(|u.scheme|) && s[..|u.scheme|] == u.scheme
    requires Authority(s[|u.scheme| + 3..]) == (u.host, u.port, rest) && Tail(rest) == (u.path, u.query, u.fragment)
    ensures u == Parse(s)
  {
  }

  // The parts of a parsed text are the only ones it can be cut into.
  lemma {:induction false} ReadsOnly(s: string, u: Url, c: Cut)
    requires Reads(s, u, c)
    ensures u == Parse(s)
  {
    assert Tail(Rest(u, c)) == (u.path, u.query, u.fragment) by { RestOnly(s, u, c); }
    if c.mark {
      var after := u.host + (If(c.colon, ":") + (u.port + Rest(u, c)));
      assert Authority(after) == (u.host, u.port, Rest(u, c)) by { AuthorityOnly(u, c); }
      FirstIsFound(u.scheme, after);
      MarkedOnly(s, u, Rest(u, c));
    } else {
      PlainOnly(u, c);
      NoneIsFound(s);
    }
  }

  lemma {:induction false} PlainOnly(u: Url, c: Cut)
    requires u.scheme == u.host == u.port == "" && !c.mark && !c.colon
    ensures Whole(u, c) == Rest(u, c)
  {
  }

  // Parsing is reading: u is what s parses to if and only if s can be cut into u.
  lemma {:induction false} ParseIsReading(s: string, u: Url)
    ensures u == Parse(s) <==> exists c :: Reads(s, u, c)
  {
    var c := ParseReads(s);
    if d :| Reads(s, u, d) { ReadsOnly(s, u, d); }
  }
}
