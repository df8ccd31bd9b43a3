// Which tools and resources become direct tools under which names, and how the
// registry of direct tools follows a change of that list.
module DirectTools {

  datatype Option<T> = None | Some(value: T)

  datatype Filter = All | Only(names: set<string>) | Nothing

  // A cached tool, or a resource read as a tool. visible and allowed are the
  // answers of the visibility and include/exclude rules.
  datatype Candidate = Candidate(name: string, prefixedName: string, visible: bool, allowed: bool, details: string)

  datatype Server = Server(
    name: string, disabled: bool, cacheValid: bool, directTools: Option<Filter>, exposeResources: bool,
    tools: seq<Candidate>, resources: seq<Candidate>)

  datatype EnvSelection = EnvSelection(servers: set<string>, tools: map<string, set<string>>)

  // A direct tool. Everything in it is part of its fingerprint.
  datatype Spec = Spec(serverName: string, originalName: string, prefixedName: string, details: string)

  datatype Settings = Settings(env: Option<EnvSelection>, globalDirect: Filter, builtin: set<string>)

  // --- Candidates in order -------------------------------------------------

  function ToolFilter(server: Server, s: Settings): Filter {
    if s.env.Some? then
      if server.name in s.env.value.servers then All
      else if server.name in s.env.value.tools then Only(s.env.value.tools[server.name])
      else Nothing
    else if server.directTools.Some? then server.directTools.value
    else s.globalDirect
  }

  predicate Selected(c: Candidate, f: Filter) {
    c.visible && c.allowed && (f.All? || (f.Only? && c.name in f.names))
  }

  function SpecOf(server: Server, c: Candidate): Spec {
    Spec(server.name, c.name, c.prefixedName, c.details)
  }

  function Eligible(server: Server, f: Filter, candidates: seq<Candidate>): seq<Spec> {
    if candidates == [] then []
    else if Selected(candidates[0], f) then [SpecOf(server, candidates[0])] + Eligible(server, f, candidates[1..])
    else Eligible(server, f, candidates[1..])
  }

  // A server's tools, then its resources unless it hides them.
  function Offers(server: Server, s: Settings): seq<Spec> {
    if server.disabled || !server.cacheValid then []
    else
      var f := ToolFilter(server, s);
      Eligible(server, f, server.tools) + (if server.exposeResources then Eligible(server, f, server.resources) else [])
  }

  function AllOffers(servers: seq<Server>, s: Settings): seq<Spec> {
    if servers == [] then [] else Offers(servers[0], s) + AllOffers(servers[1..], s)
  }

  // Whether the environment, the server or the global setting asks for a tool, in
  // this order of precedence.
  predicate Asked(server: Server, s: Settings, tool: string) {
    match s.env
    case Some(env) => server.name in env.servers || (server.name in env.tools && tool in env.tools[server.name])
    case None => Admits(if server.directTools.Some? then server.directTools.value else s.globalDirect, tool)
  }

  predicate Admits(f: Filter, tool: string) {
    match f
    case All => true
    case Only(names) => tool in names
    case Nothing => false
  }

  // A tool or a resource that a server puts forward.
  predicate PutsForward(server: Server, s: Settings, c: Candidate) {
    && !server.disabled && server.cacheValid
    && (c in server.tools || (server.exposeResources && c in server.resources))
    && c.visible && c.allowed && Asked(server, s, c.name)
  }

  lemma {:induction false} EligibleMembers(server: Server, f: Filter, candidates: seq<Candidate>, x: Spec)
    ensures x in Eligible(server, f, candidates) <==>
      exists c :: c in candidates && Selected(c, f) && x == SpecOf(server, c)
  {
    if candidates != [] {
      EligibleMembers(server, f, candidates[1..], x);
      assert candidates == [candidates[0]] + candidates[1..];
    }
  }

  lemma SelectedIsAsked(server: Server, s: Settings, c: Candidate)
    ensures Selected(c, ToolFilter(server, s)) <==> c.visible && c.allowed && Asked(server, s, c.name)
  {
  }

  lemma OffersMembers(server: Server, s: Settings, x: Spec)
    ensures x in Offers(server, s) <==>
      exists c :: PutsForward(server, s, c) && x == Spec(server.name, c.name, c.prefixedName, c.details)
  {
    if !server.disabled && server.cacheValid {
      var f := ToolFilter(server, s);
      EligibleMembers(server, f, server.tools, x);
      EligibleMembers(server, f, server.resources, x);
      forall c {
        SelectedIsAsked(server, s, c);
      }
      if x in Offers(server, s) {
        var c :| (c in server.tools || (server.exposeResources && c in server.resources))
          && Selected(c, f) && x == SpecOf(server, c);
        assert PutsForward(server, s, c);
      }
      if c :| PutsForward(server, s, c) && x == Spec(server.name, c.name, c.prefixedName, c.details) {
        assert Selected(c, f) && x == SpecOf(server, c);
      }
    }
  }

  // Exactly what enabled servers with a valid cache put forward is offered.
  lemma {:induction false} OfferedExactly(servers: seq<Server>, s: Settings, x: Spec)
    ensures x in AllOffers(servers, s) <==>
      exists server, c :: server in servers && PutsForward(server, s, c)
        && x == Spec(server.name, c.name, c.prefixedName, c.details)
  {
    if servers != [] {
      OfferedExactly(servers[1..], s, x);
      OffersMembers(servers[0], s, x);
      assert servers == [servers[0]] + servers[1..];
    }
  }

  // --- First one wins ------------------------------------------------------

  function NamesOf(specs: seq<Spec>): set<string> {
    set x <- specs :: x.prefixedName
  }

  // Skip names that are taken, and take the others as they come.
  function FirstWins(offers: seq<Spec>, taken: set<string>): seq<Spec> {
    if offers == [] then []
    else if offers[0].prefixedName in taken then FirstWins(offers[1..], taken)
    else [offers[0]] + FirstWins(offers[1..], taken + {offers[0].prefixedName})
  }

  // The first spec with a name.
  function Owner(specs: seq<Spec>, name: string): Option<Spec> {
    if specs == [] then None
    else if specs[0].prefixedName == name then Some(specs[0])
    else Owner(specs[1..], name)
  }

  lemma {:induction false} OwnerIsFirst(specs: seq<Spec>, name: string, k: nat)
    requires k < |specs|
    ensures
      specs[k].prefixedName == name && (forall i :: 0 <= i < k ==> specs[i].prefixedName != name) ==>
        Owner(specs, name) == Some(specs[k])
    ensures Owner(specs, name).None? ==> specs[k].prefixedName != name
  {
    if k > 0 {
      OwnerIsFirst(specs[1..], name, k - 1);
      if forall i :: 0 <= i < k ==> specs[i].prefixedName != name {
        assert forall i :: 0 <= i < k - 1 ==> specs[1..][i] == specs[i + 1];
      }
    }
  }

  function Resolve(servers: seq<Server>, s: Settings): seq<Spec> {
    FirstWins(AllOffers(servers, s), s.builtin)
  }

  // Unavailable servers keep their names but their tools are not emitted.
  function Emit(specs: seq<Spec>, unavailable: set<string>): seq<Spec> {
    if specs == [] then []
    else if specs[0].serverName in unavailable then Emit(specs[1..], unavailable)
    else [specs[0]] + Emit(specs[1..], unavailable)
  }

  ghost predicate Distinct(specs: seq<Spec>) {
    forall i, j :: 0 <= i < j < |specs| ==> specs[i].prefixedName != specs[j].prefixedName
  }

  lemma {:induction false} FirstWinsIsDistinct(offers: seq<Spec>, taken: set<string>)
    ensures Distinct(FirstWins(offers, taken))
    ensures NamesOf(FirstWins(offers, taken)) !! taken
  {
    if offers != [] {
      if offers[0].prefixedName in taken {
        FirstWinsIsDistinct(offers[1..], taken);
      } else {
        var rest := FirstWins(offers[1..], taken + {offers[0].prefixedName});
        FirstWinsIsDistinct(offers[1..], taken + {offers[0].prefixedName});
        forall x <- rest ensures x.prefixedName !in taken && x.prefixedName != offers[0].prefixedName {
          assert x.prefixedName in NamesOf(rest);
        }
      }
    }
  }

  // A name that is not taken goes to the first offer that bears it.
  lemma {:induction false} FirstOfferOwns(offers: seq<Spec>, taken: set<string>, name: string)
    ensures Owner(FirstWins(offers, taken), name) == if name in taken then None else Owner(offers, name)
  {
    if offers != [] {
      if offers[0].prefixedName in taken {
        FirstOfferOwns(offers[1..], taken, name);
      } else {
        var rest := FirstWins(offers[1..], taken + {offers[0].prefixedName});
        FirstOfferOwns(offers[1..], taken + {offers[0].prefixedName}, name);
        assert ([offers[0]] + rest)[1..] == rest;
      }
    }
  }

  // Resolved direct tools have pairwise distinct names, none built in, and each
  // name is owned by the first eligible tool or resource in order.
  lemma ResolvedNames(servers: seq<Server>, s: Settings, name: string)
    ensures Distinct(Resolve(servers, s)) && NamesOf(Resolve(servers, s)) !! s.builtin
    ensures Owner(Resolve(servers, s), name) == if name in s.builtin then None else Owner(AllOffers(servers, s), name)
  {
    FirstWinsIsDistinct(AllOffers(servers, s), s.builtin);
    FirstOfferOwns(AllOffers(servers, s), s.builtin, name);
  }

  lemma {:induction false} EmitMembers(specs: seq<Spec>, unavailable: set<string>, x: Spec)
    ensures x in Emit(specs, unavailable) <==> x in specs && x.serverName !in unavailable
  {
    if specs != [] {
      EmitMembers(specs[1..], unavailable, x);
      assert specs == [specs[0]] + specs[1..];
    }
  }

  // Taking servers offline hides their own tools only: no other server takes
  // over a name, and nobody else loses one.
  lemma {:induction false} EmitOwners(specs: seq<Spec>, unavailable: set<string>, name: string)
    requires Distinct(specs)
    ensures Distinct(Emit(specs, unavailable))
    ensures
      var owner := Owner(specs, name);
      Owner(Emit(specs, unavailable), name) ==
        if owner.Some? && owner.value.serverName in unavailable then None else owner
  {
    if specs != [] {
      var rest := specs[1..];
      EmitOwners(rest, unavailable, name);
      forall x <- Emit(rest, unavailable) ensures x.prefixedName != specs[0].prefixedName {
        EmitMembers(rest, unavailable, x);
      }
      assert ([specs[0]] + Emit(rest, unavailable))[1..] == Emit(rest, unavailable);
      if specs[0].prefixedName == name {
        NoOwner(rest, name);
        NoOwner(Emit(rest, unavailable), name);
      }
    }
  }

  lemma {:induction false} NoOwner(specs: seq<Spec>, name: string)
    requires forall x <- specs :: x.prefixedName != name
    ensures Owner(specs, name) == None
  {
    if specs != [] {
      NoOwner(specs[1..], name);
    }
  }

  // --- The resolving loops -------------------------------------------------

  lemma {:induction false} FirstWinsAppends(a: seq<Spec>, b: seq<Spec>, taken: set<string>)
    ensures FirstWins(a + b, taken) == FirstWins(a, taken) + FirstWins(b, taken + NamesOf(FirstWins(a, taken)))
    decreases |a|
  {
    if a == [] {
      assert a + b == b && NamesOf([]) == {};
      assert taken + {} == taken;
    } else {
      assert (a + b)[1..] == a[1..] + b;
      if a[0].prefixedName in taken {
        FirstWinsAppends(a[1..], b, taken);
      } else {
        var more := taken + {a[0].prefixedName};
        FirstWinsAppends(a[1..], b, more);
        var rest := FirstWins(a[1..], more);
        NamesOfCons(a[0], rest);
        assert more + NamesOf(rest) == taken + NamesOf([a[0]] + rest);
      }
    }
  }

  lemma NamesOfCons(x: Spec, rest: seq<Spec>)
    ensures NamesOf([x] + rest) == {x.prefixedName} + NamesOf(rest)
  {
    assert forall y :: y in [x] + rest <==> y == x || y in rest;
  }

  lemma NamesOfAppend(a: seq<Spec>, b: seq<Spec>)
    ensures NamesOf(a + b) == NamesOf(a) + NamesOf(b)
  {
    assert forall y :: y in a + b <==> y in a || y in b;
  }

  lemma {:induction false} EligibleAppends(server: Server, f: Filter, a: seq<Candidate>, b: seq<Candidate>)
    ensures Eligible(server, f, a + b) == Eligible(server, f, a) + Eligible(server, f, b)
    decreases |a|
  {
    if a == [] {
      assert a + b == b;
    } else {
      EligibleAppends(server, f, a[1..], b);
      assert (a + b)[1..] == a[1..] + b;
    }
  }

  lemma {:induction false} AllOffersAppends(a: seq<Server>, b: seq<Server>, s: Settings)
    ensures AllOffers(a + b, s) == AllOffers(a, s) + AllOffers(b, s)
    decreases |a|
  {
    if a == [] {
      assert a + b == b;
    } else {
      AllOffersAppends(a[1..], b, s);
      AllOffersCons(a[0], a[1..] + b, s);
      assert [a[0]] + (a[1..] + b) == a + b;
      assert Offers(a[0], s) + (AllOffers(a[1..], s) + AllOffers(b, s)) == AllOffers(a, s) + AllOffers(b, s);
    }
  }

  lemma AllOffersCons(server: Server, rest: seq<Server>, s: Settings)
    ensures AllOffers([server] + rest, s) == Offers(server, s) + AllOffers(rest, s)
  {
    assert ([server] + rest)[1..] == rest;
  }

  // Emitting one more candidate's specs, none or one of them.
  lemma FirstWinsOneMore(a: seq<Spec>, b: seq<Spec>, taken: set<string>)
    requires |b| <= 1
    ensures
      var before := FirstWins(a, taken);
      FirstWins(a + b, taken) ==
        if b == [] || b[0].prefixedName in taken + NamesOf(before) then before else before + b
  {
    FirstWinsAppends(a, b, taken);
    if b == [] {
      assert a + b == a;
    } else {
      assert b == [b[0]] && b[1..] == [];
    }
  }

  lemma NamesOfOneMore(specs: seq<Spec>, x: Spec)
    ensures NamesOf(specs + [x]) == NamesOf(specs) + {x.prefixedName}
  {
    assert forall y :: y in specs + [x] <==> y in specs || y == x;
  }

  // The loop over one server's tools, or over its resources.
  method AddCandidates(
    server: Server, f: Filter, candidates: seq<Candidate>, builtin: set<string>, specs: seq<Spec>, seen: set<string>)
    returns (specs': seq<Spec>, seen': set<string>)
    requires seen == NamesOf(specs)
    ensures specs' == specs + FirstWins(Eligible(server, f, candidates), builtin + seen)
    ensures seen' == NamesOf(specs')
  {
    specs', seen' := specs, seen;
    for i := 0 to |candidates|
      invariant specs' == specs + FirstWins(Eligible(server, f, candidates[..i]), builtin + seen)
      invariant seen' == NamesOf(specs')
    {
      var c := candidates[i];
      var before := FirstWins(Eligible(server, f, candidates[..i]), builtin + seen);
      assert candidates[..i + 1] == candidates[..i] + [c];
      EligibleAppends(server, f, candidates[..i], [c]);
      FirstWinsOneMore(Eligible(server, f, candidates[..i]), Eligible(server, f, [c]), builtin + seen);
      NamesOfAppend(specs, before);
      assert builtin + seen + NamesOf(before) == builtin + seen';
      if !Selected(c, f) {
        continue;
      }
      if c.prefixedName in builtin || c.prefixedName in seen' {
        continue;
      }
      NamesOfOneMore(specs', SpecOf(server, c));
      seen' := seen' + {c.prefixedName};
      specs' := specs' + [SpecOf(server, c)];
    }
    assert candidates[..|candidates|] == candidates;
  }

  // A server's tools first, then its resources.
  lemma OffersInTwo(server: Server, s: Settings, taken: set<string>)
    requires !server.disabled && server.cacheValid
    ensures
      var f := ToolFilter(server, s);
      var fromTools := FirstWins(Eligible(server, f, server.tools), taken);
      FirstWins(Offers(server, s), taken) == fromTools +
        if server.exposeResources
        then FirstWins(Eligible(server, f, server.resources), taken + NamesOf(fromTools))
        else []
  {
    var tools := Eligible(server, ToolFilter(server, s), server.tools);
    FirstWinsAppends(tools, Eligible(server, ToolFilter(server, s), server.resources), taken);
    assert tools + [] == tools;
  }

  // One server's turn of the outer loop.
  method AddServer(server: Server, s: Settings, specs: seq<Spec>, seen: set<string>)
    returns (specs': seq<Spec>, seen': set<string>)
    requires seen == NamesOf(specs)
    ensures specs' == specs + FirstWins(Offers(server, s), s.builtin + seen)
    ensures seen' == NamesOf(specs')
  {
    specs', seen' := specs, seen;
    if server.disabled || !server.cacheValid {
      return;
    }
    var f := ToolFilter(server, s);
    specs', seen' := AddCandidates(server, f, server.tools, s.builtin, specs, seen);
    OffersInTwo(server, s, s.builtin + seen);
    if server.exposeResources {
      ghost var fromTools := FirstWins(Eligible(server, f, server.tools), s.builtin + seen);
      NamesOfAppend(specs, fromTools);
      assert s.builtin + seen' == s.builtin + seen + NamesOf(fromTools);
      specs', seen' := AddCandidates(server, f, server.resources, s.builtin, specs', seen');
    }
  }

  method ResolveDirectTools(servers: seq<Server>, s: Settings, unavailable: set<string>)
    returns (emitted: seq<Spec>, reservedNames: set<string>)
    ensures emitted == Emit(Resolve(servers, s), unavailable)
    ensures reservedNames == NamesOf(Resolve(servers, s))
  {
    var specs, seen := [], {};
    for i := 0 to |servers|
      invariant specs == FirstWins(AllOffers(servers[..i], s), s.builtin)
      invariant seen == NamesOf(specs)
    {
      assert servers[..i + 1] == servers[..i] + [servers[i]];
      AllOffersAppends(servers[..i], [servers[i]], s);
      assert AllOffers([servers[i]], s) == Offers(servers[i], s);
      FirstWinsAppends(AllOffers(servers[..i], s), Offers(servers[i], s), s.builtin);
      specs, seen := AddServer(servers[i], s, specs, seen);
    }
    assert servers[..|servers|] == servers;
    reservedNames := seen;
    emitted := [];
    for i := 0 to |specs|
      invariant emitted == Emit(specs[..i], unavailable)
    {
      assert specs[..i + 1] == specs[..i] + [specs[i]];
      EmitAppends(specs[..i], [specs[i]], unavailable);
      if specs[i].serverName !in unavailable {
        emitted := emitted + [specs[i]];
      }
    }
    assert specs[..|specs|] == specs;
  }

  lemma {:induction false} EmitAppends(a: seq<Spec>, b: seq<Spec>, unavailable: set<string>)
    ensures Emit(a + b, unavailable) == Emit(a, unavailable) + Emit(b, unavailable)
    decreases |a|
  {
    if a == [] {
      assert a + b == b;
    } else {
      EmitAppends(a[1..], b, unavailable);
      assert (a + b)[1..] == a[1..] + b;
    }
  }

  // --- The registry --------------------------------------------------------

  // Names in order, of the specs the registry does not know yet.
  function Added(registry: map<string, Spec>, specs: seq<Spec>): seq<string> {
    if specs == [] then []
    else (if specs[0].prefixedName in registry then [] else [specs[0].prefixedName]) + Added(registry, specs[1..])
  }

  // Names in order, of the specs it knows with another fingerprint.
  function Updated(registry: map<string, Spec>, specs: seq<Spec>): seq<string> {
    if specs == [] then []
    else
      var x := specs[0];
      (if x.prefixedName in registry && registry[x.prefixedName] != x then [x.prefixedName] else [])
      + Updated(registry, specs[1..])
  }

  function RegistryOf(specs: seq<Spec>): map<string, Spec> {
    if specs == [] then map[]
    else RegistryOf(specs[..|specs| - 1])[specs[|specs| - 1].prefixedName := specs[|specs| - 1]]
  }

  lemma {:induction false} RegistryIsExact(specs: seq<Spec>)
    requires Distinct(specs)
    ensures RegistryOf(specs).Keys == NamesOf(specs)
    ensures forall x <- specs :: RegistryOf(specs)[x.prefixedName] == x
  {
    if specs != [] {
      var before, last := specs[..|specs| - 1], specs[|specs| - 1];
      RegistryIsExact(before);
      assert specs == before + [last];
      NamesOfAppend(before, [last]);
      NamesOfCons(last, []);
    }
  }

  lemma {:induction false} NothingToDo(registry: map<string, Spec>, specs: seq<Spec>)
    requires forall x <- specs :: x.prefixedName in registry && registry[x.prefixedName] == x
    ensures Added(registry, specs) == [] && Updated(registry, specs) == []
  {
    if specs != [] {
      NothingToDo(registry, specs[1..]);
    }
  }

  // A second sync with the same specs changes nothing.
  lemma SyncTwice(specs: seq<Spec>)
    requires Distinct(specs)
    ensures Added(RegistryOf(specs), specs) == [] && Updated(RegistryOf(specs), specs) == []
    ensures RegistryOf(specs).Keys - NamesOf(specs) == {}
  {
    RegistryIsExact(specs);
    NothingToDo(RegistryOf(specs), specs);
  }

  lemma {:induction false} AddedNames(registry: map<string, Spec>, specs: seq<Spec>, n: string)
    ensures n in Added(registry, specs) <==> n in NamesOf(specs) && n !in registry
  {
    if specs != [] {
      AddedNames(registry, specs[1..], n);
      NamesOfCons(specs[0], specs[1..]);
      assert specs == [specs[0]] + specs[1..];
    }
  }

  lemma {:induction false} NoUpdates(registry: map<string, Spec>, specs: seq<Spec>)
    requires forall x <- specs :: x.prefixedName in registry ==> registry[x.prefixedName] == x
    ensures Updated(registry, specs) == []
  {
    if specs != [] {
      NoUpdates(registry, specs[1..]);
    }
  }

  // A server going offline takes exactly its own tools out of the registry, and
  // coming back puts exactly these in again.
  lemma OfflineAndBack(specs: seq<Spec>, unavailable: set<string>, server: string, n: string)
    requires Distinct(specs) && server !in unavailable
    ensures
      var on, off := Emit(specs, unavailable), Emit(specs, unavailable + {server});
      var owned := exists x <- specs :: x.prefixedName == n && x.serverName == server;
      && Distinct(on) && Distinct(off)
      && Added(RegistryOf(on), off) == [] && Updated(RegistryOf(on), off) == []
      && (n in RegistryOf(on).Keys - NamesOf(off) <==> owned)
      && Updated(RegistryOf(off), on) == [] && RegistryOf(off).Keys - NamesOf(on) == {}
      && (n in Added(RegistryOf(off), on) <==> owned)
  {
    var on, off := Emit(specs, unavailable), Emit(specs, unavailable + {server});
    EmitOwners(specs, unavailable, n);
    EmitOwners(specs, unavailable + {server}, n);
    RegistryIsExact(on);
    RegistryIsExact(off);
    forall x ensures x in on <==> x in specs && x.serverName !in unavailable {
      EmitMembers(specs, unavailable, x);
    }
    forall x ensures x in off <==> x in on && x.serverName != server {
      EmitMembers(specs, unavailable + {server}, x);
    }
    NothingToDo(RegistryOf(on), off);
    SameNameSameSpec(on, off);
    NoUpdates(RegistryOf(off), on);
    AddedNames(RegistryOf(off), on, n);
    DistinctMembers(specs);
  }

  lemma DistinctMembers(specs: seq<Spec>)
    requires Distinct(specs)
    ensures forall x, y :: x in specs && y in specs && x.prefixedName == y.prefixedName ==> x == y
  {
  }

  lemma SameNameSameSpec(on: seq<Spec>, off: seq<Spec>)
    requires Distinct(on) && Distinct(off) && forall x <- off :: x in on
    ensures forall x <- on :: x.prefixedName in RegistryOf(off) ==> RegistryOf(off)[x.prefixedName] == x
  {
    RegistryIsExact(off);
    DistinctMembers(on);
    forall x <- on | x.prefixedName in RegistryOf(off) ensures RegistryOf(off)[x.prefixedName] == x {
      assert x.prefixedName in NamesOf(off);
      var y :| y in off && y.prefixedName == x.prefixedName;
    }
  }

  class DirectToolRegistry {
    var registeredDirectTools: map<string, Spec>

    // Register the specs that are new or changed.
    method RegisterSpecs(specs: seq<Spec>) returns (added: seq<string>, updated: seq<string>)
      requires Distinct(specs)
      modifies this
      ensures registeredDirectTools == old(registeredDirectTools) + RegistryOf(specs)
      ensures added == Added(old(registeredDirectTools), specs)
      ensures updated == Updated(old(registeredDirectTools), specs)
    {
      ghost var before := registeredDirectTools;
      added, updated := [], [];
      for i := 0 to |specs|
        invariant registeredDirectTools == before + RegistryOf(specs[..i])
        invariant added == Added(before, specs[..i]) && updated == Updated(before, specs[..i])
      {
        var spec := specs[i];
        SyncSnoc(before, specs, i);
        SameAsBefore(before, RegistryOf(specs[..i]), spec);
        if spec.prefixedName !in registeredDirectTools || registeredDirectTools[spec.prefixedName] != spec {
          if spec.prefixedName in registeredDirectTools {
            updated := updated + [spec.prefixedName];
          } else {
            added := added + [spec.prefixedName];
          }
          registeredDirectTools := registeredDirectTools[spec.prefixedName := spec];
        }
      }
      assert specs[..|specs|] == specs;
    }

    // Afterwards the registry is exactly name to fingerprint of the specs.
    method SyncDirectTools(specs: seq<Spec>)
      returns (added: seq<string>, updated: seq<string>, deactivated: set<string>)
      requires Distinct(specs)
      modifies this
      ensures registeredDirectTools == RegistryOf(specs)
      ensures added == Added(old(registeredDirectTools), specs)
      ensures updated == Updated(old(registeredDirectTools), specs)
      ensures deactivated == old(registeredDirectTools).Keys - NamesOf(specs)
    {
      RegistryIsExact(specs);
      added, updated := RegisterSpecs(specs);
      deactivated := registeredDirectTools.Keys - NamesOf(specs);
      registeredDirectTools := registeredDirectTools - deactivated;
    }
  }

  lemma SameAsBefore(before: map<string, Spec>, done: map<string, Spec>, x: Spec)
    requires x.prefixedName !in done
    ensures x.prefixedName in before + done <==> x.prefixedName in before
    ensures x.prefixedName in before ==> (before + done)[x.prefixedName] == before[x.prefixedName]
    ensures before + done[x.prefixedName := x] == (before + done)[x.prefixedName := x]
    ensures x.prefixedName in before && before[x.prefixedName] == x ==>
      before + done[x.prefixedName := x] == before + done
  {
  }

  // One more spec, whose name none of the earlier ones bears.
  lemma SyncSnoc(before: map<string, Spec>, specs: seq<Spec>, i: nat)
    requires Distinct(specs) && i < |specs|
    ensures
      var x := specs[i];
      && x.prefixedName !in RegistryOf(specs[..i])
      && RegistryOf(specs[..i + 1]) == RegistryOf(specs[..i])[x.prefixedName := x]
      && Added(before, specs[..i + 1]) ==
           Added(before, specs[..i]) + (if x.prefixedName in before then [] else [x.prefixedName])
      && Updated(before, specs[..i + 1]) ==
           Updated(before, specs[..i]) +
           (if x.prefixedName in before && before[x.prefixedName] != x then [x.prefixedName] else [])
  {
    var a, x := specs[..i], specs[i];
    assert specs[..i + 1] == a + [x];
    assert (a + [x])[..i] == a;
    RegistryIsExact(a);
    AddedAppends(before, a, x);
    UpdatedAppends(before, a, x);
  }

  lemma {:induction false} AddedAppends(before: map<string, Spec>, a: seq<Spec>, x: Spec)
    ensures Added(before, a + [x]) == Added(before, a) + (if x.prefixedName in before then [] else [x.prefixedName])
    decreases |a|
  {
    if a == [] {
      assert a + [x] == [x];
    } else {
      AddedAppends(before, a[1..], x);
      assert (a + [x])[1..] == a[1..] + [x];
    }
  }

  // What one spec adds to the names updated.
  function UpdatedName(before: map<string, Spec>, x: Spec): seq<string> {
    if x.prefixedName in before && before[x.prefixedName] != x then [x.prefixedName] else []
  }

  lemma UpdatedCons(before: map<string, Spec>, x: Spec, rest: seq<Spec>)
    ensures Updated(before, [x] + rest) == UpdatedName(before, x) + Updated(before, rest)
  {
    assert ([x] + rest)[1..] == rest;
  }

  lemma {:induction false} UpdatedAppends(before: map<string, Spec>, a: seq<Spec>, x: Spec)
    ensures Updated(before, a + [x]) == Updated(before, a) + UpdatedName(before, x)
    decreases |a|
  {
    if a == [] {
      assert a + [x] == [x] + [];
      UpdatedCons(before, x, []);
      assert UpdatedName(before, x) + [] == UpdatedName(before, x);
    } else {
      UpdatedAppends(before, a[1..], x);
      assert a + [x] == [a[0]] + (a[1..] + [x]) && a == [a[0]] + a[1..];
      UpdatedCons(before, a[0], a[1..] + [x]);
      UpdatedCons(before, a[0], a[1..]);
    }
  }
}
