/** The configuration's own objects: a vector of apps, a map from names to them, and a parser that
    fills both in place. */
module Configuration {
  import opened Common
  import opened ConfigSpec

  // The rest of a list, once the apps at `done` are parsed.
  function Resume(s: State, done: seq<nat>, rs: seq<Ref>): (State, Option<seq<nat>>) {
    var (t, ps) := ParseApps(s, rs);
    (t, if ps.None? then None else Some(done + ps.value))
  }

  lemma {:induction false} ResumeFresh(s: State, rs: seq<Ref>)
    ensures Resume(s, [], rs) == ParseApps(s, rs)
  {
    var ps := ParseApps(s, rs).1;
    assert ps.Some? ==> [] + ps.value == ps.value;
  }

  lemma {:induction false} ResumeOne(s: State, done: seq<nat>, rs: seq<Ref>)
    requires rs != []
    ensures var (t, p) := ParseApp(s, rs[0]);
      Resume(s, done, rs) == if p.None? then (t, None) else Resume(t, done + [p.value], rs[1..])
  {
    var (t, p) := ParseApp(s, rs[0]);
    if p.Some? {
      var ps := ParseApps(t, rs[1..]).1;
      assert ps.Some? ==> done + ([p.value] + ps.value) == done + [p.value] + ps.value;
    }
  }

  class AppObject {
    var name: string
    var body: int
    var preamble: seq<AppObject>

    constructor (name: string)
      ensures this.name == name && body == DEFAULT_BODY && preamble == []
    {
      this.name, body, preamble := name, DEFAULT_BODY, [];
    }
  }

  class Config {
    var apps: seq<AppObject>
    var names: map<string, AppObject>

    // Where the objects of the vector are.
    ghost var state: State

    ghost predicate Valid()
      reads this, apps
    {
      && |apps| == |state.apps|
      && (forall i, j :: 0 <= i < j < |apps| ==> apps[i] != apps[j])
      && (forall i :: 0 <= i < |apps| ==> apps[i].name == state.apps[i].name && apps[i].body == state.apps[i].body)
      && (forall i :: 0 <= i < |apps| ==> At(apps[i].preamble, state.apps[i].preamble))
      && names.Keys == state.names.Keys
      && (forall n :: n in names ==> state.names[n] < |apps| && names[n] == apps[state.names[n]])
    }

    // The objects found at these positions.
    ghost predicate At(objects: seq<AppObject>, ps: seq<nat>)
      reads this
    {
      |objects| == |ps| && forall k :: 0 <= k < |ps| ==> ps[k] < |apps| && objects[k] == apps[ps[k]]
    }

    // Objects keep their place; new ones are new.
    twostate predicate Grew()
      reads this
    {
      old(apps) <= apps && forall i :: |old(apps)| <= i < |apps| ==> fresh(apps[i])
    }

    constructor ()
      ensures Valid() && state == EMPTY
    {
      apps, names, state := [], map[], EMPTY;
    }

    method GetApp(name: string) returns (app: AppObject)
      requires Valid()
      modifies this
      ensures Valid() && Grew()
      ensures state == ConfigSpec.GetApp(old(state), name).0
      ensures var p := ConfigSpec.GetApp(old(state), name).1; p < |apps| && app == apps[p]
    {
      if name != "" {
        if name in names {
          return names[name];
        }
      }
      app := new AppObject(name);
      apps := apps + [app];
      if name != "" {
        names := names[name := app];
      }
      state := ConfigSpec.GetApp(state, name).0;
    }

    // Moves a parsed definition into its object.
    method Store(name: string, body: int, preamble: seq<AppObject>, ghost positions: seq<nat>) returns (app: AppObject)
      requires Valid() && At(preamble, positions)
      modifies this, apps
      ensures Valid() && Grew()
      ensures state == Define(old(state), App(name, body, positions)).0
      ensures var p := Define(old(state), App(name, body, positions)).1; p < |apps| && app == apps[p]
    {
      ghost var s := state;
      ghost var was := apps;
      if name != "" {
        app := GetApp(name);
      } else {
        app := new AppObject("");
        apps := apps + [app];
      }
      app.name, app.body, app.preamble := name, body, preamble;
      state := Define(s, App(name, body, positions)).0;
      ghost var p := Define(s, App(name, body, positions)).1;
      forall i | 0 <= i < |apps|
        ensures apps[i].name == state.apps[i].name && apps[i].body == state.apps[i].body
        ensures At(apps[i].preamble, state.apps[i].preamble)
      {
        assert i != p ==> apps[i] != app;
      }
    }

    method ParseApp(r: Ref) returns (app: AppObject?)
      requires Valid()
      modifies this, apps
      ensures Valid() && Grew()
      ensures state == ConfigSpec.ParseApp(old(state), r).0
      ensures var p := ConfigSpec.ParseApp(old(state), r).1;
        if p.None? then app == null else p.value < |apps| && app == apps[p.value]
      decreases r, 0
    {
      match r {
        case Name(name) =>
          if name != "" {
            app := GetApp(name);
          } else {
            app := null;
          }
        case Bad(preamble) =>
          var _, _ := ParseApps(preamble);
          app := null;
        case Inline(name, body, preamble) =>
          var ok, ps := ParseApps(preamble);
          if !ok {
            return null;
          }
          app := Store(name, body, ps, ConfigSpec.ParseApps(old(state), preamble).1.value);
      }
    }

    method ParseApps(rs: seq<Ref>) returns (ok: bool, parsed: seq<AppObject>)
      requires Valid()
      modifies this, apps
      ensures Valid() && Grew()
      ensures state == ConfigSpec.ParseApps(old(state), rs).0
      ensures var ps := ConfigSpec.ParseApps(old(state), rs).1; ok == ps.Some? && (ok ==> At(parsed, ps.value))
      decreases rs, 1
    {
      parsed := [];
      ghost var done: seq<nat> := [];
      ResumeFresh(state, rs);
      for i := 0 to |rs|
        invariant Valid() && Grew() && At(parsed, done)
        invariant ConfigSpec.ParseApps(old(state), rs) == Resume(state, done, rs[i..])
      {
        ghost var s := state;
        var app := ParseApp(rs[i]);
        assert rs[i..][1..] == rs[i + 1..];
        ResumeOne(s, done, rs[i..]);
        if app == null {
          return false, [];
        }
        ghost var p := ConfigSpec.ParseApp(s, rs[i]).1.value;
        parsed := parsed + [app];
        done := done + [p];
      }
      ok := true;
    }
  }
}
