/** Resolving app definitions and references: what a configuration means, and what the parser
    makes of it. */
module ConfigSpec {
  import opened Common

  // An app where the configuration asks for one: by name, or defined in place, with or without
  // a name. `body` stands for all its settings but name and preamble. Anything else is bad: a
  // value of the wrong kind, or a broken setting that comes after the preamble.
  datatype Ref = Name(name: string) | Inline(name: string, body: int, preamble: seq<Ref>) | Bad(preamble: seq<Ref>)

  const DEFAULT_BODY := 0

  // An app object; its preamble are positions in the vector of apps.
  datatype App = App(name: string, body: int, preamble: seq<nat>)

  // The parser's vector of apps and its map from names to them.
  datatype State = State(apps: seq<App>, names: map<string, nat>)

  const EMPTY := State([], map[])

  // ---------------------------------------------------------------- the parser

  function GetApp(s: State, name: string): (State, nat) {
    if name != "" && name in s.names then (s, s.names[name])
    else
      var p := |s.apps|;
      (State(s.apps + [App(name, DEFAULT_BODY, [])], if name != "" then s.names[name := p] else s.names), p)
  }

  // A definition, once its preamble is parsed.
  function Define(s: State, app: App): (State, nat) {
    if app.name != "" then
      var (s1, p) := GetApp(s, app.name);
      (if p < |s1.apps| then s1.(apps := s1.apps[p := app]) else s1, p)
    else (s.(apps := s.apps + [app]), |s.apps|)
  }

  function ParseApp(s: State, r: Ref): (State, Option<nat>)
    decreases r, 0
  {
    match r
    case Name(name) =>
      if name == "" then (s, None)
      else var (s1, p) := GetApp(s, name); (s1, Some(p))
    case Inline(name, body, preamble) =>
      var (s1, ps) := ParseApps(s, preamble);
      if ps.None? then (s1, None)
      else var (s2, p) := Define(s1, App(name, body, ps.value)); (s2, Some(p))
    case Bad(preamble) => (ParseApps(s, preamble).0, None)
  }

  // A list of apps, up to the first that fails.
  function ParseApps(s: State, rs: seq<Ref>): (State, Option<seq<nat>>)
    decreases rs, 1
  {
    if rs == [] then (s, Some([]))
    else
      var (s1, p) := ParseApp(s, rs[0]);
      if p.None? then (s1, None)
      else
        var (s2, ps) := ParseApps(s1, rs[1..]);
        (s2, if ps.None? then None else Some([p.value] + ps.value))
  }

  // ---------------------------------------------------------------- what a configuration means

  // What a reference leads to: a name, or an app without one.
  datatype Target = Named(name: string) | Anonymous(body: int, preamble: seq<Target>)

  datatype Definition = Definition(body: int, preamble: seq<Target>)

  const BLANK := Definition(DEFAULT_BODY, [])

  predicate Good(r: Ref)
    decreases r, 0
  {
    match r
    case Name(name) => name != ""
    case Inline(_, _, preamble) => AllGood(preamble)
    case Bad(_) => false
  }

  predicate AllGood(rs: seq<Ref>)
    decreases rs, 1
  {
    rs == [] || (Good(rs[0]) && AllGood(rs[1..]))
  }

  function Meaning(r: Ref): Target
    decreases r, 0
  {
    match r
    case Name(name) => Named(name)
    case Inline(name, body, preamble) => if name != "" then Named(name) else Anonymous(body, Meanings(preamble))
    case Bad(_) => Named("")
  }

  function Meanings(rs: seq<Ref>): seq<Target>
    decreases rs, 1
  {
    if rs == [] then [] else [Meaning(rs[0])] + Meanings(rs[1..])
  }

  // The definitions in a reference, each after those in its preamble.
  function Definitions(r: Ref): seq<(string, Definition)>
    decreases r, 0
  {
    match r
    case Inline(name, body, preamble) =>
      AllDefinitions(preamble) + if name != "" then [(name, Definition(body, Meanings(preamble)))] else []
    case _ => []
  }

  function AllDefinitions(rs: seq<Ref>): seq<(string, Definition)>
    decreases rs, 1
  {
    if rs == [] then [] else Definitions(rs[0]) + AllDefinitions(rs[1..])
  }

  function Mentions(r: Ref): set<string>
    decreases r, 0
  {
    match r
    case Name(name) => {name}
    case Inline(name, _, preamble) => AllMentions(preamble) + if name != "" then {name} else {}
    case Bad(_) => {}
  }

  function AllMentions(rs: seq<Ref>): set<string>
    decreases rs, 1
  {
    if rs == [] then {} else Mentions(rs[0]) + AllMentions(rs[1..])
  }

  // The last definition of a name counts.
  function Last(ds: seq<(string, Definition)>, name: string, before: Definition): Definition {
    if ds == [] then before
    else Last(ds[1..], name, if ds[0].0 == name then ds[0].1 else before)
  }

  // ---------------------------------------------------------------- what a state means

  // Each name has exactly one app, every pointer is to an app, and apps without a name are
  // built bottom up.
  ghost predicate Sound(s: State) {
    && (forall n :: n in s.names ==> n != "" && s.names[n] < |s.apps| && s.apps[s.names[n]].name == n)
    && (forall i :: 0 <= i < |s.apps| && s.apps[i].name != "" ==>
      s.apps[i].name in s.names && s.names[s.apps[i].name] == i)
    && (forall i, k :: 0 <= i < |s.apps| && 0 <= k < |s.apps[i].preamble| ==> s.apps[i].preamble[k] < |s.apps|)
    && (forall i, k :: 0 <= i < |s.apps| && 0 <= k < |s.apps[i].preamble| && s.apps[i].name == "" ==>
      var p := s.apps[i].preamble[k]; s.apps[p].name == "" ==> p < i)
  }

  ghost function TargetOf(s: State, p: nat): Target
    requires Sound(s) && p < |s.apps|
    decreases p, 1, 0
  {
    var app := s.apps[p];
    if app.name != "" then Named(app.name)
    else Anonymous(app.body, TargetsBelow(s, app.preamble, p))
  }

  // The targets of a list of pointers; those to apps without a name are below p.
  ghost function TargetsBelow(s: State, ps: seq<nat>, p: nat): seq<Target>
    requires Sound(s)
    requires forall k :: 0 <= k < |ps| ==> ps[k] < |s.apps| && (s.apps[ps[k]].name == "" ==> ps[k] < p)
    decreases p, 0, |ps|
  {
    if ps == [] then []
    else
      [if s.apps[ps[0]].name != "" then Named(s.apps[ps[0]].name) else TargetOf(s, ps[0])] + TargetsBelow(s, ps[1..], p)
  }

  ghost function TargetsOf(s: State, ps: seq<nat>): seq<Target>
    requires Sound(s) && forall k :: 0 <= k < |ps| ==> ps[k] < |s.apps|
  {
    TargetsBelow(s, ps, |s.apps|)
  }

  ghost function DefinitionOf(s: State, name: string): Definition
    requires Sound(s) && name in s.names
  {
    var app := s.apps[s.names[name]];
    Definition(app.body, TargetsOf(s, app.preamble))
  }
}
