/** The parser gives every configuration its meaning, and the order of definitions and references
    does not matter as long as no name is defined in two different ways. */
module ConfigMeaning {
  import opened Common
  import opened ConfigSpec

  // What parsing keeps: positions, names, and apps without a name.
  ghost predicate Extends(s: State, t: State) {
    && |s.apps| <= |t.apps|
    && (forall i :: 0 <= i < |s.apps| ==> t.apps[i].name == s.apps[i].name)
    && (forall i :: 0 <= i < |s.apps| && s.apps[i].name == "" ==> t.apps[i] == s.apps[i])
    && (forall n :: n in s.names ==> n in t.names && t.names[n] == s.names[n])
  }

  // Pointers into the vector of apps.
  ghost predicate Points(s: State, ps: seq<nat>) {
    forall k :: 0 <= k < |ps| ==> ps[k] < |s.apps|
  }

  ghost predicate PointsBelow(s: State, ps: seq<nat>, p: nat) {
    Points(s, ps) && forall k :: 0 <= k < |ps| ==> s.apps[ps[k]].name == "" ==> ps[k] < p
  }

  // What a pointer leads to never changes.
  lemma {:induction false} TargetStays(s: State, t: State, p: nat)
    requires Sound(s) && Sound(t) && Extends(s, t) && p < |s.apps|
    ensures TargetOf(s, p) == TargetOf(t, p)
    decreases p, 1, 0
  {
    if s.apps[p].name == "" {
      assert PointsBelow(s, s.apps[p].preamble, p);
      TargetsStay(s, t, s.apps[p].preamble, p, p);
    }
  }

  lemma {:induction false} TargetsStay(s: State, t: State, ps: seq<nat>, p: nat, q: nat)
    requires Sound(s) && Sound(t) && Extends(s, t)
    requires PointsBelow(s, ps, p) && PointsBelow(s, ps, q)
    ensures TargetsBelow(s, ps, p) == TargetsBelow(t, ps, q)
    decreases p, 0, |ps|
  {
    if ps != [] {
      if s.apps[ps[0]].name == "" {
        TargetStays(s, t, ps[0]);
      }
      TargetsStay(s, t, ps[1..], p, q);
    }
  }

  ghost function Before(s: State, name: string): Definition
    requires Sound(s)
  {
    if name in s.names then DefinitionOf(s, name) else BLANK
  }

  // The definitions ds were taken over, and no name but those in ns was added.
  ghost predicate Took(s: State, t: State, ds: seq<(string, Definition)>, ns: set<string>) {
    && Sound(s) && Sound(t)
    && t.names.Keys == s.names.Keys + ns
    && (forall n :: n in t.names ==> DefinitionOf(t, n) == Last(ds, n, Before(s, n)))
  }

  lemma {:induction false} LastAppends(a: seq<(string, Definition)>, b: seq<(string, Definition)>, n: string, d: Definition)
    ensures Last(a + b, n, d) == Last(b, n, Last(a, n, d))
  {
    if a == [] {
      assert a + b == b;
    } else {
      assert (a + b)[1..] == a[1..] + b;
      LastAppends(a[1..], b, n, if a[0].0 == n then a[0].1 else d);
    }
  }

  lemma {:induction false} LastKeeps(ds: seq<(string, Definition)>, n: string, d: Definition)
    requires forall i :: 0 <= i < |ds| ==> ds[i].0 != n
    ensures Last(ds, n, d) == d
  {
    if ds != [] {
      LastKeeps(ds[1..], n, d);
    }
  }

  // Only what is mentioned is defined.
  lemma {:induction false} DefinedIsMentioned(r: Ref)
    ensures forall i :: 0 <= i < |Definitions(r)| ==> Definitions(r)[i].0 in Mentions(r)
    decreases r, 0
  {
    if r.Inline? {
      AllDefinedAreMentioned(r.preamble);
    }
  }

  lemma {:induction false} AllDefinedAreMentioned(rs: seq<Ref>)
    ensures forall i :: 0 <= i < |AllDefinitions(rs)| ==> AllDefinitions(rs)[i].0 in AllMentions(rs)
    decreases rs, 1
  {
    if rs != [] {
      DefinedIsMentioned(rs[0]);
      AllDefinedAreMentioned(rs[1..]);
    }
  }

  lemma {:induction false} TookBoth(s: State, t: State, u: State,
                                    ds: seq<(string, Definition)>, ns: set<string>,
                                    es: seq<(string, Definition)>, ms: set<string>)
    requires Took(s, t, ds, ns) && Took(t, u, es, ms)
    requires forall i :: 0 <= i < |ds| ==> ds[i].0 in ns
    ensures Took(s, u, ds + es, ns + ms)
  {
    forall n | n in u.names
      ensures DefinitionOf(u, n) == Last(ds + es, n, Before(s, n))
    {
      LastAppends(ds, es, n, Before(s, n));
      if n !in t.names {
        LastKeeps(ds, n, Before(s, n));
      }
    }
  }

  lemma {:induction false} GetAppTakes(s: State, name: string)
    requires Sound(s)
    requires name != ""
    ensures var (t, p) := GetApp(s, name);
      Took(s, t, [], {name}) && Extends(s, t) && p < |t.apps| && t.names[name] == p && t.apps[p].name == name
  {
    var (t, p) := GetApp(s, name);
    assert Sound(t) && Extends(s, t);
    forall n | n in t.names
      ensures DefinitionOf(t, n) == Before(s, n)
    {
      if n in s.names {
        var ps := s.apps[s.names[n]].preamble;
        TargetsStay(s, t, ps, |s.apps|, |t.apps|);
      }
    }
  }

  // Writing a definition over an app of that name.
  lemma {:induction false} OverwriteTakes(s: State, app: App)
    requires Sound(s) && app.name != "" && app.name in s.names
    requires Points(s, app.preamble)
    ensures var t := s.(apps := s.apps[s.names[app.name] := app]);
      Extends(s, t) && Took(s, t, [(app.name, Definition(app.body, TargetsOf(s, app.preamble)))], {app.name})
  {
    var p := s.names[app.name];
    var t := s.(apps := s.apps[p := app]);
    assert Sound(t) && Extends(s, t);
    forall n | n in t.names
      ensures DefinitionOf(t, n) == Last([(app.name, Definition(app.body, TargetsOf(s, app.preamble)))], n, Before(s, n))
    {
      TargetsStay(s, t, if n == app.name then app.preamble else s.apps[s.names[n]].preamble, |s.apps|, |t.apps|);
    }
  }

  lemma {:induction false} PushTakes(s: State, app: App)
    requires Sound(s) && app.name == "" && Points(s, app.preamble)
    ensures var t := s.(apps := s.apps + [app]);
      && Extends(s, t) && Took(s, t, [], {})
      && TargetOf(t, |s.apps|) == Anonymous(app.body, TargetsOf(s, app.preamble))
  {
    var t := s.(apps := s.apps + [app]);
    assert Sound(t) && Extends(s, t);
    TargetsStay(s, t, app.preamble, |s.apps|, |s.apps|);
    forall n | n in t.names
      ensures DefinitionOf(t, n) == Before(s, n)
    {
      TargetsStay(s, t, s.apps[s.names[n]].preamble, |s.apps|, |t.apps|);
    }
  }

  lemma {:induction false} DefineTakes(s: State, app: App)
    requires Sound(s) && Points(s, app.preamble)
    ensures var (t, p) := Define(s, app); var ts := TargetsOf(s, app.preamble);
      && Extends(s, t) && p < |t.apps|
      && (if app.name != "" then Took(s, t, [(app.name, Definition(app.body, ts))], {app.name}) else Took(s, t, [], {}))
      && TargetOf(t, p) == (if app.name != "" then Named(app.name) else Anonymous(app.body, ts))
  {
    if app.name == "" {
      PushTakes(s, app);
    } else {
      var (s1, p) := GetApp(s, app.name);
      GetAppTakes(s, app.name);
      TargetsStay(s, s1, app.preamble, |s.apps|, |s1.apps|);
      OverwriteTakes(s1, app);
      var ds := [(app.name, Definition(app.body, TargetsOf(s, app.preamble)))];
      var t := s1.(apps := s1.apps[p := app]);
      TookBoth(s, s1, t, [], {app.name}, ds, {app.name});
      assert [] + ds == ds && {app.name} + {app.name} == {app.name};
    }
  }

  lemma {:induction false} TookNothing(s: State)
    requires Sound(s)
    ensures Took(s, s, [], {})
  {}

  lemma {:induction false} TargetsCons(t: State, p: nat, ps: seq<nat>)
    requires Sound(t) && p < |t.apps| && Points(t, ps)
    ensures Points(t, [p] + ps)
    ensures TargetsOf(t, [p] + ps) == [TargetOf(t, p)] + TargetsOf(t, ps)
  {
    assert ([p] + ps)[1..] == ps;
  }

  // Parsing succeeds exactly on well formed configurations, and what it returns leads where the
  // reference means to. Whatever it is given, every name keeps exactly one app and every pointer
  // an app to point to.
  lemma {:induction false} ParseAppMeans(s: State, r: Ref)
    requires Sound(s)
    ensures var (t, p) := ParseApp(s, r);
      && Sound(t) && Extends(s, t)
      && (p.Some? <==> Good(r))
      && (p.Some? ==> p.value < |t.apps| && TargetOf(t, p.value) == Meaning(r) && Took(s, t, Definitions(r), Mentions(r)))
    decreases r, 0
  {
    match r
    case Bad(preamble) =>
      ParseAppsMean(s, preamble);
    case Name(name) =>
      if name != "" {
        GetAppTakes(s, name);
      }
    case Inline(name, body, preamble) =>
      ParseAppsMean(s, preamble);
      var (s1, ps) := ParseApps(s, preamble);
      if ps.Some? {
        var app := App(name, body, ps.value);
        DefineTakes(s1, app);
        AllDefinedAreMentioned(preamble);
        var (t, p) := Define(s1, app);
        if name != "" {
          TookBoth(s, s1, t, AllDefinitions(preamble), AllMentions(preamble),
                   [(name, Definition(body, Meanings(preamble)))], {name});
        } else {
          TookBoth(s, s1, t, AllDefinitions(preamble), AllMentions(preamble), [], {});
        }
      }
  }

  lemma {:induction false} ParseAppsMean(s: State, rs: seq<Ref>)
    requires Sound(s)
    ensures var (t, ps) := ParseApps(s, rs);
      && Sound(t) && Extends(s, t)
      && (ps.Some? <==> AllGood(rs))
      && (ps.Some? ==> Points(t, ps.value) && TargetsOf(t, ps.value) == Meanings(rs) && Took(s, t, AllDefinitions(rs), AllMentions(rs)))
    decreases rs, 1
  {
    if rs == [] {
      TookNothing(s);
    } else {
      ParseAppMeans(s, rs[0]);
      var (s1, p) := ParseApp(s, rs[0]);
      if p.Some? {
        ParseAppsMean(s1, rs[1..]);
        var (t, ps) := ParseApps(s1, rs[1..]);
        if ps.Some? {
          TargetStays(s1, t, p.value);
          TargetsCons(t, p.value, ps.value);
          DefinedIsMentioned(rs[0]);
          TookBoth(s, s1, t, Definitions(rs[0]), Mentions(rs[0]), AllDefinitions(rs[1..]), AllMentions(rs[1..]));
        }
      }
    }
  }

  // ---------------------------------------------------------------- order

  // The graph a configuration gives: each name's definition.
  ghost function Graph(rs: seq<Ref>): map<string, Definition> {
    ParseAppsMean(EMPTY, rs);
    var s := ParseApps(EMPTY, rs).0;
    map n | n in s.names :: DefinitionOf(s, n)
  }

  // No name is defined in two different ways.
  ghost predicate Consistent(ds: seq<(string, Definition)>) {
    forall i, j :: 0 <= i < |ds| && 0 <= j < |ds| && ds[i].0 == ds[j].0 ==> ds[i].1 == ds[j].1
  }

  // The last definition of each name is its definition; a name without one has the default.
  lemma {:induction false} GraphIsLast(rs: seq<Ref>)
    requires AllGood(rs)
    ensures Graph(rs).Keys == AllMentions(rs)
    ensures forall n :: n in Graph(rs) ==> Graph(rs)[n] == Last(AllDefinitions(rs), n, BLANK)
  {
    ParseAppsMean(EMPTY, rs);
    assert AllMentions(rs) == {} + AllMentions(rs);
    forall n | n in Graph(rs)
      ensures Graph(rs)[n] == Last(AllDefinitions(rs), n, BLANK)
    {
      assert Before(EMPTY, n) == BLANK;
    }
  }

  lemma {:induction false} LastIsAny(ds: seq<(string, Definition)>, n: string, d: Definition)
    ensures (exists i :: 0 <= i < |ds| && ds[i].0 == n && ds[i].1 == Last(ds, n, d))
         || (Last(ds, n, d) == d && forall i :: 0 <= i < |ds| ==> ds[i].0 != n)
  {
    if ds != [] {
      var e := if ds[0].0 == n then ds[0].1 else d;
      LastIsAny(ds[1..], n, e);
      var last := Last(ds[1..], n, e);
      if i :| 0 <= i < |ds[1..]| && ds[1..][i].0 == n && ds[1..][i].1 == last {
        assert ds[i + 1].0 == n && ds[i + 1].1 == last;
      } else {
        assert forall i :: 1 <= i < |ds| ==> ds[i] == ds[1..][i - 1];
      }
    }
  }

  // As long as no name is defined in two ways, only what is defined and what is mentioned
  // matters: not the order, nor whether a definition stands in a preamble or in the list.
  lemma {:induction false} OrderDoesNotMatter(rs: seq<Ref>, ts: seq<Ref>)
    requires AllGood(rs) && AllGood(ts)
    requires Consistent(AllDefinitions(rs))
    requires forall d :: d in AllDefinitions(rs) <==> d in AllDefinitions(ts)
    requires AllMentions(rs) == AllMentions(ts)
    ensures Graph(rs) == Graph(ts)
  {
    GraphIsLast(rs);
    GraphIsLast(ts);
    var ds, es := AllDefinitions(rs), AllDefinitions(ts);
    forall n | n in Graph(rs)
      ensures Graph(rs)[n] == Graph(ts)[n]
    {
      LastIsAny(ds, n, BLANK);
      LastIsAny(es, n, BLANK);
      if i :| 0 <= i < |ds| && ds[i].0 == n && ds[i].1 == Last(ds, n, BLANK) {
        assert ds[i] in es;
        var j :| 0 <= j < |es| && es[j].0 == n && es[j].1 == Last(es, n, BLANK);
        assert es[j] in ds;
      } else {
        forall j | 0 <= j < |es|
          ensures es[j].0 != n
        {
          assert es[j] in ds;
        }
      }
    }
  }

  lemma {:induction false} InAll(rs: seq<Ref>)
    ensures forall d :: d in AllDefinitions(rs) <==> exists r :: r in rs && d in Definitions(r)
    ensures forall n :: n in AllMentions(rs) <==> exists r :: r in rs && n in Mentions(r)
    ensures AllGood(rs) <==> forall r :: r in rs ==> Good(r)
  {
    if rs != [] {
      InAll(rs[1..]);
      assert forall r :: r in rs <==> r == rs[0] || r in rs[1..];
      assert AllDefinitions(rs) == Definitions(rs[0]) + AllDefinitions(rs[1..]);
      assert AllMentions(rs) == Mentions(rs[0]) + AllMentions(rs[1..]);
      if AllGood(rs) {
        assert forall r :: r in rs ==> Good(r);
      } else if Good(rs[0]) {
        var r :| r in rs[1..] && !Good(r);
        assert r in rs;
      } else {
        assert rs[0] in rs;
      }
      forall d
        ensures d in AllDefinitions(rs) <==> exists r :: r in rs && d in Definitions(r)
      {
        assert d in AllDefinitions(rs) <==> d in Definitions(rs[0]) || d in AllDefinitions(rs[1..]);
      }
    }
  }

  lemma {:induction false} PermutedIsTheSame(rs: seq<Ref>, ts: seq<Ref>)
    requires multiset(rs) == multiset(ts)
    requires Consistent(AllDefinitions(rs))
    ensures AllGood(rs) <==> AllGood(ts)
    ensures AllGood(rs) ==> Graph(rs) == Graph(ts)
  {
    InAll(rs);
    InAll(ts);
    assert forall r :: r in rs <==> r in multiset(rs);
    assert forall r :: r in ts <==> r in multiset(ts);
    assert AllMentions(rs) == AllMentions(ts);
    if AllGood(rs) {
      OrderDoesNotMatter(rs, ts);
    }
  }

  // With two definitions of a name the order matters exactly when they differ.
  lemma {:induction false} RedefinitionMatters(a: Ref, b: Ref)
    requires Good(a) && Good(b) && a.Inline? && b.Inline? && a.name == b.name != ""
    ensures a.name in Graph([a, b]) && a.name in Graph([b, a])
    ensures Graph([a, b])[a.name] == Graph([b, a])[a.name] <==>
      (a.body == b.body && Meanings(a.preamble) == Meanings(b.preamble))
  {
    LastOfTwo(a, b);
    LastOfTwo(b, a);
  }

  lemma {:induction false} LastOfTwo(a: Ref, b: Ref)
    requires Good(a) && Good(b) && b.Inline? && b.name != ""
    ensures b.name in Graph([a, b]) && Graph([a, b])[b.name] == Definition(b.body, Meanings(b.preamble))
  {
    var rs := [a, b];
    assert rs[1..] == [b] && [b][1..] == [];
    assert AllGood([b]);
    GraphIsLast(rs);
    var own := [(b.name, Definition(b.body, Meanings(b.preamble)))];
    assert AllDefinitions([b]) == Definitions(b) + [] == AllDefinitions(b.preamble) + own;
    assert AllDefinitions(rs) == (Definitions(a) + AllDefinitions(b.preamble)) + own;
    LastAppends(Definitions(a) + AllDefinitions(b.preamble), own, b.name, BLANK);
    assert b.name in Mentions(b);
    assert AllMentions([b]) == Mentions(b) + {};
  }
}
