/** Connection lookup (backend/connections/store.py, backend/connections/resolver.py): the
validator's check and the resolver agree on every graph. */
module Connections {
  import opened Digraph
  import opened Wrappers
  import opened Graph

  datatype Profile = Profile(name: string, typ: string, config: map<string, Value>, user: Option<string>)

  /** Who asks, over which store; `mappings` are a shared graph's slot substitutions. */
  datatype Directory = Directory(store: seq<Profile>, user: Option<string>, mappings: map<string, string>)

  /** First profile of exactly this name and owner. */
  function GetConnection(store: seq<Profile>, name: string, user: Option<string>): Option<Profile> {
    if store == [] then None
    else if store[0].name == name && store[0].user == user then Some(store[0])
    else GetConnection(store[1..], name, user)
  }

  /** The caller's own connection, else the global one of that name. */
  function ResolveForUser(store: seq<Profile>, name: string, user: Option<string>): Option<Profile> {
    if user.Some? && GetConnection(store, name, user).Some? then GetConnection(store, name, user)
    else GetConnection(store, name, None)
  }

  function Resolve(d: Directory, name: string): Option<Profile> {
    ResolveForUser(d.store, if name in d.mappings then d.mappings[name] else name, d.user)
  }

  // ----- Which profile answers a name -----

  /** Profile i is the first of this name that belongs to this owner, or to nobody. */
  ghost predicate FirstOf(store: seq<Profile>, name: string, owner: Option<string>, i: nat) {
    && i < |store| && store[i].name == name && store[i].user == owner
    && forall j | 0 <= j < i :: !(store[j].name == name && store[j].user == owner)
  }

  ghost predicate Has(store: seq<Profile>, name: string, owner: Option<string>) {
    exists p :: p in store && p.name == name && p.user == owner
  }

  /** The name a caller's graph means: the caller's substitute for it, if there is one. */
  ghost function Meant(d: Directory, name: string): string {
    if name in d.mappings then d.mappings[name] else name
  }

  /** p answers this name for this caller: the first of the caller's own profiles of the meant name;
      only if the caller has none, or no identity, the first global one. */
  ghost predicate Answers(d: Directory, name: string, p: Profile) {
    exists i: nat :: FirstOf(d.store, Meant(d, name), if OwnsOne(d, name) then d.user else None, i)
                     && p == d.store[i]
  }

  ghost predicate OwnsOne(d: Directory, name: string) {
    d.user.Some? && Has(d.store, Meant(d, name), d.user)
  }

  /** Somebody's profile answers: one of the caller's own, or a global one. Nobody else's does. */
  ghost predicate Answered(d: Directory, name: string) {
    OwnsOne(d, name) || Has(d.store, Meant(d, name), None)
  }

  lemma {:induction false} FoundIsFirst(store: seq<Profile>, name: string, owner: Option<string>) returns (i: nat)
    ensures GetConnection(store, name, owner).Some? <==> Has(store, name, owner)
    ensures GetConnection(store, name, owner).Some? ==>
              FirstOf(store, name, owner, i) && GetConnection(store, name, owner).value == store[i]
  {
    i := 0;
    if store != [] && !(store[0].name == name && store[0].user == owner) {
      var k := FoundIsFirst(store[1..], name, owner);
      i := k + 1;
      if GetConnection(store, name, owner).Some? {
        assert forall j | 0 < j < i :: store[j] == store[1..][j - 1];
      }
      assert forall p :: p in store <==> p == store[0] || p in store[1..];
    }
  }

  lemma OnlyOneFirst(store: seq<Profile>, name: string, owner: Option<string>, i: nat, j: nat)
    requires FirstOf(store, name, owner, i) && FirstOf(store, name, owner, j)
    ensures i == j
  {
  }

  /** The lookup is right: it finds exactly the profile that answers, and nothing exactly if none does. */
  lemma ResolveMeans(d: Directory, name: string)
    ensures forall p :: Resolve(d, name) == Some(p) <==> Answers(d, name, p)
    ensures Resolve(d, name).Some? <==> Answered(d, name)
  {
    hide Has, GetConnection, FirstOf;
    var m, owner := Meant(d, name), if OwnsOne(d, name) then d.user else None;
    var i := FoundIsFirst(d.store, m, d.user);
    var k := FoundIsFirst(d.store, m, None);
    FirstAnswers(d, name, m, owner, if OwnsOne(d, name) then i else k);
  }

  lemma FirstAnswers(d: Directory, name: string, m: string, owner: Option<string>, k: nat)
    requires m == Meant(d, name) && owner == (if OwnsOne(d, name) then d.user else None)
    requires Resolve(d, name) == GetConnection(d.store, m, owner)
    requires GetConnection(d.store, m, owner).Some? <==> Has(d.store, m, owner)
    requires Has(d.store, m, owner) ==> FirstOf(d.store, m, owner, k) && Resolve(d, name) == Some(d.store[k])
    ensures forall p :: Resolve(d, name) == Some(p) <==> Answers(d, name, p)
  {
    hide Has, GetConnection, Resolve;
    forall p | Answers(d, name, p) ensures Resolve(d, name) == Some(p) {
      var h: nat :| FirstOf(d.store, m, owner, h) && p == d.store[h];
      FirstIsThere(d.store, m, owner, h);
      OnlyOneFirst(d.store, m, owner, h, k);
    }
  }

  lemma FirstIsThere(store: seq<Profile>, name: string, owner: Option<string>, i: nat)
    requires FirstOf(store, name, owner, i)
    ensures Has(store, name, owner)
  {
    assert store[i] in store;
  }

  /** Whoever is answered gets a profile of their own or a global one, and a global one only if they
      have none of their own. */
  lemma AnswersBelong(d: Directory, name: string, p: Profile)
    requires Answers(d, name, p)
    ensures p in d.store && p.name == Meant(d, name) && (p.user == None || p.user == d.user)
    ensures d.user.Some? && p.user == None ==> !OwnsOne(d, name)
  {
  }

  // ----- Which names a graph references -----

  predicate EndsWith(s: string, suffix: string) {
    |suffix| <= |s| && s[|s| - |suffix|..] == suffix
  }

  /** Config keys that name a connection. */
  predicate IsReference(key: string, v: ConfigValue) {
    (key == "connection" || EndsWith(key, "_connection")) && v.Plain? && v.value.Text?
  }

  function ReferenceNames(config: map<string, ConfigValue>): set<string> {
    set key | key in config && IsReference(key, config[key]) :: config[key].value.s
  }

  function ReferencedNames(nodes: seq<NodeSpec>): set<string> {
    set n, name | n in nodes && name in ReferenceNames(n.config) :: name
  }

  /** Some node has this text under the key "connection" or under a key that ends in "_connection". */
  ghost predicate Names(nodes: seq<NodeSpec>, name: string) {
    exists n, key :: n in nodes && NamesAt(n, key, name)
  }

  ghost predicate NamesAt(n: NodeSpec, key: string, name: string) {
    && key in n.config && n.config[key] == Plain(Text(name))
    && (key == "connection" || exists prefix :: key == prefix + "_connection")
  }

  lemma ReferencesMean(n: NodeSpec, name: string)
    ensures name in ReferenceNames(n.config) <==> exists key :: NamesAt(n, key, name)
  {
    forall key | key in n.config
      ensures IsReference(key, n.config[key]) && n.config[key].value.s == name <==> NamesAt(n, key, name)
    {
      EndsWithMeans(key, "_connection");
    }
  }

  lemma EndsWithMeans(s: string, suffix: string)
    ensures EndsWith(s, suffix) <==> exists prefix :: s == prefix + suffix
  {
    if EndsWith(s, suffix) {
      assert s == s[..|s| - |suffix|] + suffix;
    }
  }

  lemma ReferencedMeans(nodes: seq<NodeSpec>)
    ensures forall name :: name in ReferencedNames(nodes) <==> Names(nodes, name)
  {
    hide ReferencedNames, Names;
    forall name ensures name in ReferencedNames(nodes) <==> Names(nodes, name) {
      OneReferenced(nodes, name);
    }
  }

  lemma OneReferenced(nodes: seq<NodeSpec>, name: string)
    ensures name in ReferencedNames(nodes) <==> Names(nodes, name)
  {
    hide ReferenceNames, NamesAt;
    if name in ReferencedNames(nodes) {
      var n :| n in nodes && name in ReferenceNames(n.config);
      ReferencesMean(n, name);
    }
    if n, key :| n in nodes && NamesAt(n, key, name) {
      ReferencesMean(n, name);
    }
  }

  datatype Missing = Missing(node: Id, name: string)

  ghost predicate IsMissing(d: Directory, nodes: seq<NodeSpec>, x: Missing) {
    exists n :: n in nodes && n.id == x.node && x.name in ReferenceNames(n.config) && Resolve(d, x.name).None?
  }

  /** The complaint, apart from how names and profiles are looked up. */
  ghost predicate Unanswered(d: Directory, nodes: seq<NodeSpec>, x: Missing) {
    exists n, key :: n in nodes && n.id == x.node && NamesAt(n, key, x.name) && !Answered(d, x.name)
  }

  lemma MissingMeans(d: Directory, nodes: seq<NodeSpec>, x: Missing)
    ensures IsMissing(d, nodes, x) <==> Unanswered(d, nodes, x)
  {
    hide ReferenceNames, NamesAt, Resolve, Answered;
    ResolveMeans(d, x.name);
    forall n: NodeSpec ensures x.name in ReferenceNames(n.config) <==> exists key :: NamesAt(n, key, x.name) {
      ReferencesMean(n, x.name);
    }
  }

  /** The validator reports exactly the references that nothing answers, looking each name up once. */
  method CheckMissingConnections(d: Directory, nodes: seq<NodeSpec>) returns (issues: seq<Missing>)
    ensures forall x :: x in issues <==> Unanswered(d, nodes, x)
    ensures issues == [] <==> forall name | Names(nodes, name) :: Answered(d, name)
  {
    hide Resolve, Unanswered, Answered, Names, ReferenceNames;
    issues := [];
    var known: map<string, bool> := map[];
    for i := 0 to |nodes|
      invariant forall name | name in known :: known[name] == Resolve(d, name).Some?
      invariant forall x :: x in issues <==> IsMissing(d, nodes[..i], x)
    {
      var n := nodes[i];
      assert nodes[..i + 1] == nodes[..i] + [n];
      var names := ReferenceNames(n.config);
      while names != {}
        invariant names <= ReferenceNames(n.config)
        invariant forall name | name in known :: known[name] == Resolve(d, name).Some?
        invariant forall x :: x in issues <==>
          (IsMissing(d, nodes[..i], x)
           || (x.node == n.id && x.name in ReferenceNames(n.config) - names && Resolve(d, x.name).None?))
      {
        var name :| name in names;
        if name !in known {
          known := known[name := Resolve(d, name).Some?];
        }
        if !known[name] {
          issues := issues + [Missing(n.id, name)];
        }
        names := names - {name};
      }
      forall x ensures x in issues <==> IsMissing(d, nodes[..i + 1], x) {
        MissingAppend(d, nodes[..i], n, x);
      }
    }
    assert nodes[..|nodes|] == nodes;
    NoneMissing(d, nodes, issues);
    forall x ensures IsMissing(d, nodes, x) <==> Unanswered(d, nodes, x) {
      MissingMeans(d, nodes, x);
    }
    AllAnswered(d, nodes);
  }

  lemma AllAnswered(d: Directory, nodes: seq<NodeSpec>)
    ensures (forall name | name in ReferencedNames(nodes) :: Resolve(d, name).Some?)
       <==> (forall name | Names(nodes, name) :: Answered(d, name))
  {
    hide ReferencedNames, Resolve, Answered, Names;
    ReferencedMeans(nodes);
    forall name ensures Resolve(d, name).Some? <==> Answered(d, name) {
      ResolveMeans(d, name);
    }
  }

  lemma MissingAppend(d: Directory, nodes: seq<NodeSpec>, n: NodeSpec, x: Missing)
    ensures IsMissing(d, nodes + [n], x) <==>
              (IsMissing(d, nodes, x)
               || (x.node == n.id && x.name in ReferenceNames(n.config) && Resolve(d, x.name).None?))
  {
    if IsMissing(d, nodes, x) {
      var m :| m in nodes && m.id == x.node && x.name in ReferenceNames(m.config) && Resolve(d, x.name).None?;
      assert m in nodes + [n];
    }
    if x.node == n.id && x.name in ReferenceNames(n.config) && Resolve(d, x.name).None? {
      assert n in nodes + [n];
    }
  }

  lemma NoneMissing(d: Directory, nodes: seq<NodeSpec>, issues: seq<Missing>)
    requires forall x :: x in issues <==> IsMissing(d, nodes, x)
    ensures issues == [] <==> forall name | name in ReferencedNames(nodes) :: Resolve(d, name).Some?
  {
    if issues == [] {
      forall name | name in ReferencedNames(nodes) ensures Resolve(d, name).Some? {
        var n :| n in nodes && name in ReferenceNames(n.config);
        assert !IsMissing(d, nodes, Missing(n.id, name));
      }
    } else {
      assert issues[0] in issues;
      var n :| n in nodes && n.id == issues[0].node && issues[0].name in ReferenceNames(n.config)
        && Resolve(d, issues[0].name).None?;
      assert issues[0].name in ReferencedNames(nodes);
    }
  }

  datatype Resolution = NotFound(name: string) | Resolved(profiles: map<string, Profile>)

  /** The resolver raises exactly when the validator would have reported the graph, namely when
      nothing answers some name; otherwise it holds, under its name in the graph, the profile that
      answers for this caller: never one that belongs to somebody else. */
  method ResolveConnectionProfiles(d: Directory, nodes: seq<NodeSpec>) returns (r: Resolution)
    ensures r.Resolved? <==> forall name | Names(nodes, name) :: Answered(d, name)
    ensures r.Resolved? ==> forall name :: name in r.profiles <==> Names(nodes, name)
    ensures r.Resolved? ==> forall name | name in r.profiles ::
              && Answers(d, name, r.profiles[name])
              && (r.profiles[name].user == None || r.profiles[name].user == d.user)
              && (d.user.Some? && r.profiles[name].user == None ==> !OwnsOne(d, name))
    ensures r.NotFound? ==> Names(nodes, r.name) && !Answered(d, r.name)
  {
    hide Resolve, Answers, Answered, OwnsOne, Names, ReferencedNames;
    ReferencedMeans(nodes);
    AllAnswered(d, nodes);
    var names := ReferencedNames(nodes);
    var resolved: map<string, Profile> := map[];
    while names != {}
      invariant names <= ReferencedNames(nodes)
      invariant resolved.Keys == ReferencedNames(nodes) - names
      invariant forall name | name in resolved :: Resolve(d, name) == Some(resolved[name])
    {
      var name :| name in names;
      var profile := Resolve(d, name);
      if profile.None? {
        ResolveMeans(d, name);
        return NotFound(name);
      }
      resolved := resolved[name := profile.value];
      names := names - {name};
    }
    forall name | name in resolved
      ensures Answers(d, name, resolved[name]) && (resolved[name].user == None || resolved[name].user == d.user)
      ensures d.user.Some? && resolved[name].user == None ==> !OwnsOne(d, name)
    {
      ResolveMeans(d, name);
      AnswersBelong(d, name, resolved[name]);
    }
    return Resolved(resolved);
  }
}
