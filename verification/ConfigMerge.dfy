// Layered configuration: which fields of a server entry survive when a layer
// of higher precedence changes the server's transport or url.
module ConfigMerge {

  // Object keys. The keys the code names are constructors, every other key
  // (and every server name) is Other.
  datatype Key =
    | Command | Args | Env | Cwd | PluginDataDir | LiteralEnv
    | Url | Headers | RequestHeadersCommand | Auth | BearerToken | BearerTokenEnv | BearerTokenStore
    | OAuth | HttpTransport | Socket | Disabled
    | McpServers | McpDashServers | Imports
    | Other(text: string)

  datatype Json =
    | Null
    | Bool(value: bool)
    | Number(number: real)
    | Str(text: string)
    | Array(items: seq<Json>)
    | Object(members: map<Key, Json>)

  datatype Option<T> = None | Some(value: T)

  type Entry = map<Key, Json>
  type Servers = map<Key, Entry>

  predicate StdioField(k: Key) {
    match k
    case Command | Args | Env | Cwd | PluginDataDir | LiteralEnv => true
    case _ => false
  }

  predicate HttpField(k: Key) {
    match k
    case Url | Headers | RequestHeadersCommand | Auth | BearerToken | BearerTokenEnv | OAuth | HttpTransport => true
    case _ => false
  }

  predicate UrlBoundField(k: Key) {
    match k
    case Headers | BearerToken | BearerTokenEnv | BearerTokenStore | RequestHeadersCommand => true
    case _ => false
  }

  // A key the entry holds with a string value.
  predicate Names(e: Entry, k: Key) {
    k in e && e[k].Str?
  }

  predicate SameUrl(a: Entry, b: Entry) {
    Url in a && Url in b && a[Url] == b[Url]
  }

  predicate OAuthOff(e: Entry) {
    OAuth in e && e[OAuth] == Bool(false)
  }

  // Whether an entry loses field k when definition is laid over it.
  predicate Drops(existing: Entry, definition: Entry, k: Key) {
    || SwitchDrops(definition, k)
    || (Names(definition, Url) && !SameUrl(existing, definition) &&
        (UrlBoundField(k) || (k == OAuth && !OAuthOff(existing))))
  }

  // The fields that belong to a transport other than the one definition names.
  predicate SwitchDrops(definition: Entry, k: Key) {
    if Names(definition, Command) then HttpField(k) || k == Socket
    else if Names(definition, Url) then StdioField(k) || k == Socket
    else if Names(definition, Socket) then StdioField(k) || HttpField(k)
    else false
  }

  function Survivors(existing: Entry, definition: Entry): Entry {
    map k | k in existing && !Drops(existing, definition, k) :: existing[k]
  }

  function MergeEntry(existing: Entry, definition: Entry): Entry {
    Survivors(existing, definition) + definition
  }

  // A server's entry, empty when there is none.
  function Get(servers: Servers, name: Key): Entry {
    if name in servers then servers[name] else map[]
  }

  function Merged(base: Servers, next: Servers): Servers {
    map name | name in base.Keys + next.Keys :: MergeEntry(Get(base, name), Get(next, name))
  }

  function Without(e: Entry, fields: seq<Key>): Entry {
    map k | k in e && k !in fields :: e[k]
  }

  method DeleteFields(e: Entry, fields: seq<Key>) returns (r: Entry)
    ensures r == Without(e, fields)
  {
    r := e;
    for i := 0 to |fields|
      invariant r == Without(e, fields[..i])
    {
      r := r - {fields[i]};
    }
    assert fields[..|fields|] == fields;
  }

  const HTTP_LIST := [
    Url, Headers, RequestHeadersCommand, Auth, BearerToken, BearerTokenEnv, OAuth, HttpTransport, Socket
  ]
  const STDIO_LIST := [Command, Args, Env, Cwd, PluginDataDir, LiteralEnv, Socket]
  const SOCKET_LIST := [Command, Args, Env, Cwd, PluginDataDir, LiteralEnv, Url, Headers, RequestHeadersCommand,
                        Auth, BearerToken, BearerTokenEnv, OAuth, HttpTransport]
  const URL_BOUND_LIST := [Headers, BearerToken, BearerTokenEnv, BearerTokenStore, RequestHeadersCommand]

  lemma HttpListIs(k: Key)
    ensures k in HTTP_LIST <==> HttpField(k) || k == Socket
  {
  }

  lemma StdioListIs(k: Key)
    ensures k in STDIO_LIST <==> StdioField(k) || k == Socket
  {
  }

  lemma SocketListIs(k: Key)
    ensures k in SOCKET_LIST <==> StdioField(k) || HttpField(k)
  {
  }

  lemma UrlBoundListIs(k: Key)
    ensures k in URL_BOUND_LIST <==> UrlBoundField(k)
  {
  }

  function AfterSwitch(existing: Entry, definition: Entry): Entry {
    map k | k in existing && !SwitchDrops(definition, k) :: existing[k]
  }

  // The deletes made when definition names a transport.
  method DropOtherTransports(existing: Entry, definition: Entry) returns (r: Entry)
    ensures r == AfterSwitch(existing, definition)
  {
    if Names(definition, Command) {
      forall k { HttpListIs(k); }
      r := DeleteFields(existing, HTTP_LIST);
    } else if Names(definition, Url) {
      forall k { StdioListIs(k); }
      r := DeleteFields(existing, STDIO_LIST);
    } else if Names(definition, Socket) {
      forall k { SocketListIs(k); }
      r := DeleteFields(existing, SOCKET_LIST);
    } else {
      r := existing;
    }
  }

  method MergeOver(existing: Entry, definition: Entry) returns (entry: Entry)
    ensures entry == MergeEntry(existing, definition)
  {
    var baseEntry := DropOtherTransports(existing, definition);
    if Names(definition, Url) && !SameUrl(existing, definition) {
      forall k { UrlBoundListIs(k); }
      baseEntry := DeleteFields(baseEntry, URL_BOUND_LIST);
      if !OAuthOff(baseEntry) {
        baseEntry := DeleteFields(baseEntry, [OAuth]);
      }
    }
    assert baseEntry == Survivors(existing, definition);
    entry := baseEntry + definition;
  }

  method MergeServerMaps(base: Servers, next: Servers) returns (merged: Servers)
    ensures merged == Merged(base, next)
  {
    merged := base;
    var todo := next.Keys;
    while todo != {}
      invariant todo <= next.Keys
      invariant PartlyMerged(base, next, todo, merged)
      decreases todo
    {
      var name :| name in todo;
      var entry := MergeOver(Get(base, name), next[name]);
      OneMoreMerged(base, next, todo, merged, name);
      merged := merged[name := entry];
      todo := todo - {name};
    }
    AllMerged(base, next, merged);
  }

  lemma OneMoreMerged(base: Servers, next: Servers, todo: set<Key>, merged: Servers, name: Key)
    requires todo <= next.Keys && name in todo && PartlyMerged(base, next, todo, merged)
    ensures PartlyMerged(base, next, todo - {name}, merged[name := MergeEntry(Get(base, name), next[name])])
  {
  }

  lemma AllMerged(base: Servers, next: Servers, merged: Servers)
    requires PartlyMerged(base, next, {}, merged)
    ensures merged == Merged(base, next)
  {
    EmptyOverlay(base, next);
  }

  ghost predicate PartlyMerged(base: Servers, next: Servers, todo: set<Key>, merged: Servers) {
    && merged.Keys == base.Keys + (next.Keys - todo)
    && forall name <- merged ::
         if name in next && name !in todo then merged[name] == MergeEntry(Get(base, name), next[name])
         else name in base && merged[name] == base[name]
  }

  lemma EmptyOverlay(base: Servers, next: Servers)
    ensures forall name <- base | name !in next :: Merged(base, next)[name] == base[name]
  {
    forall name <- base | name !in next ensures Merged(base, next)[name] == base[name] {
      assert MergeEntry(base[name], map[]) == base[name];
    }
  }

  // The first n of layers, in increasing precedence, folded onto base.
  function FoldFrom(base: Servers, layers: seq<Servers>, n: nat): Servers
    requires n <= |layers|
  {
    if n == 0 then base else Merged(FoldFrom(base, layers, n - 1), layers[n - 1])
  }

  function Fold(layers: seq<Servers>): Servers {
    FoldFrom(map[], layers, |layers|)
  }

  // What each layer says about one server.
  function Definitions(layers: seq<Servers>, name: Key): seq<Entry> {
    seq(|layers|, i requires 0 <= i < |layers| => Get(layers[i], name))
  }

  // One server's effective entry once the first n definitions are over start.
  function EffectiveFrom(start: Entry, defs: seq<Entry>, n: nat): Entry
    requires n <= |defs|
  {
    if n == 0 then start else MergeEntry(EffectiveFrom(start, defs, n - 1), defs[n - 1])
  }

  function Effective(defs: seq<Entry>, n: nat): Entry
    requires n <= |defs|
  {
    EffectiveFrom(map[], defs, n)
  }

  lemma GetMerged(base: Servers, next: Servers, name: Key)
    ensures Get(Merged(base, next), name) == MergeEntry(Get(base, name), Get(next, name))
  {
    if name !in base && name !in next {
      assert MergeEntry(map[], map[]) == map[];
    }
  }

  lemma FoldStep(base: Servers, layers: seq<Servers>, name: Key, defs: seq<Entry>, n: nat)
    requires 0 < n <= |layers| == |defs| && defs[n - 1] == Get(layers[n - 1], name)
    requires Get(FoldFrom(base, layers, n - 1), name) == EffectiveFrom(Get(base, name), defs, n - 1)
    ensures Get(FoldFrom(base, layers, n), name) == EffectiveFrom(Get(base, name), defs, n)
  {
    GetMerged(FoldFrom(base, layers, n - 1), layers[n - 1], name);
  }

  lemma FoldStart(base: Servers, layers: seq<Servers>, name: Key, defs: seq<Entry>)
    ensures Get(FoldFrom(base, layers, 0), name) == EffectiveFrom(Get(base, name), defs, 0)
  {
  }

  // The fold treats every server on its own.
  lemma FoldIsPerServer(base: Servers, layers: seq<Servers>, name: Key, defs: seq<Entry>)
    requires |defs| == |layers| && forall i :: 0 <= i < |layers| ==> defs[i] == Get(layers[i], name)
    ensures Get(FoldFrom(base, layers, |layers|), name) == EffectiveFrom(Get(base, name), defs, |layers|)
  {
    FoldStart(base, layers, name, defs);
    var n := 0;
    while n < |layers|
      invariant n <= |layers| && Get(FoldFrom(base, layers, n), name) == EffectiveFrom(Get(base, name), defs, n)
    {
      n := n + 1;
      FoldStep(base, layers, name, defs, n);
    }
  }

  // --- Credentials stay bound to their url ---------------------------------

  // Layer k supplied field f of the effective entry, no later layer supplied
  // it, and since layer k the effective url has been the one it is now.
  ghost predicate SuppliedUnderUrl(defs: seq<Entry>, n: nat, f: Key, k: nat)
    requires n <= |defs|
  {
    var now := Effective(defs, n);
    && k < n && f in now && Url in now
    && f in defs[k] && defs[k][f] == now[f]
    && (forall i :: k < i < n ==> f !in defs[i])
    && (forall i :: k < i <= n ==> UrlIs(Effective(defs, i), now[Url]))
  }

  predicate UrlIs(e: Entry, url: Json) {
    Url in e && e[Url] == url
  }

  predicate UrlBound(f: Key) {
    UrlBoundField(f) || f == OAuth
  }

  // A credential field of an entry with a string url was last supplied by a
  // layer at or after the one where the effective url last became that url.
  // The one value that outlives a change of url is an inherited oauth: false.
  lemma {:induction false} CredentialsFollowUrl(defs: seq<Entry>, n: nat, f: Key)
    returns (k: nat)
    requires n <= |defs| && UrlBound(f)
    requires
      var now := Effective(defs, n);
      f in now && Names(now, Url) && !(f == OAuth && OAuthOff(now))
    ensures SuppliedUnderUrl(defs, n, f, k)
  {
    var m := n - 1;
    var existing, definition := Effective(defs, m), defs[m];
    if f in definition {
      k := m;
    } else {
      assert f in existing && !Drops(existing, definition, f);
      assert UrlIs(existing, Effective(defs, n)[Url]);
      k := CredentialsFollowUrl(defs, m, f);
    }
  }

  // The same of the folded configuration itself.
  lemma CredentialsOfFold(layers: seq<Servers>, name: Key, f: Key) returns (k: nat)
    requires UrlBound(f)
    requires
      var now := Get(Fold(layers), name);
      f in now && Names(now, Url) && !(f == OAuth && OAuthOff(now))
    ensures
      var defs := Definitions(layers, name);
      Get(Fold(layers), name) == Effective(defs, |defs|) && SuppliedUnderUrl(defs, |defs|, f, k)
  {
    var defs := Definitions(layers, name);
    FoldIsPerServer(map[], layers, name, defs);
    k := CredentialsFollowUrl(defs, |defs|, f);
  }

  // oauth: false does survive a change of url that nothing else touches.
  lemma OAuthOffSurvivesUrlChange(existing: Entry, definition: Entry)
    requires OAuthOff(existing) && Names(definition, Url) && !Names(definition, Command)
    requires OAuth !in definition
    ensures OAuthOff(MergeEntry(existing, definition))
  {
    assert !Drops(existing, definition, OAuth);
  }

  // --- What a change of transport drops ------------------------------------

  // The transport a field belongs to, if it belongs to one only.
  function TransportOf(k: Key): Option<Key> {
    match k
    case Command | Args | Env | Cwd | PluginDataDir | LiteralEnv => Some(Command)
    case Url | Headers | RequestHeadersCommand | Auth | BearerToken | BearerTokenEnv => Some(Url)
    case OAuth | HttpTransport => Some(Url)
    case Socket => Some(Socket)
    case _ => None
  }

  // The transport an entry selects: command before url before socket.
  function Selects(e: Entry): Option<Key> {
    if Names(e, Command) then Some(Command)
    else if Names(e, Url) then Some(Url)
    else if Names(e, Socket) then Some(Socket)
    else None
  }

  // A field is inherited if and only if it belongs to no other transport than the
  // one selected anew, and, where a string url is given that is not the inherited
  // one, is no credential other than oauth: false.
  lemma InheritedExactly(existing: Entry, definition: Entry, k: Key)
    requires k in existing && k !in definition
    ensures
      var selected, belongs := Selects(definition), TransportOf(k);
      var elsewhere := selected.Some? && belongs.Some? && selected != belongs;
      var newUrl := Names(definition, Url) && (Url !in existing || existing[Url] != definition[Url]);
      var credential := k == Headers || k == BearerToken || k == BearerTokenEnv || k == BearerTokenStore
        || k == RequestHeadersCommand || (k == OAuth && existing[OAuth] != Bool(false));
      k in MergeEntry(existing, definition) <==> !elsewhere && !(newUrl && credential)
    ensures k in MergeEntry(existing, definition) ==> MergeEntry(existing, definition)[k] == existing[k]
  {
  }

  // What the upper layer says stands.
  lemma SuppliedStands(existing: Entry, definition: Entry, k: Key)
    ensures
      k in definition ==>
        k in MergeEntry(existing, definition) && MergeEntry(existing, definition)[k] == definition[k]
    ensures k in MergeEntry(existing, definition) ==> k in definition || k in existing
  {
  }

  // --- One transport at a time ---------------------------------------------

  predicate IsTransport(k: Key) {
    k == Command || k == Url || k == Socket
  }

  ghost predicate AtMostOneTransport(e: Entry) {
    forall s, t :: IsTransport(s) && IsTransport(t) && Names(e, s) && Names(e, t) ==> s == t
  }

  predicate NamesTransport(e: Entry) {
    Names(e, Command) || Names(e, Url) || Names(e, Socket)
  }

  // Transport fields, where present, are strings.
  predicate TypedTransports(e: Entry) {
    && (Command in e ==> e[Command].Str?)
    && (Url in e ==> e[Url].Str?)
    && (Socket in e ==> e[Socket].Str?)
  }

  lemma MergeKeepsOneTransport(existing: Entry, definition: Entry)
    requires AtMostOneTransport(existing) && AtMostOneTransport(definition)
    ensures AtMostOneTransport(MergeEntry(existing, definition))
  {
    var r := MergeEntry(existing, definition);
    forall s, t | IsTransport(s) && IsTransport(t) && Names(r, s) && Names(r, t) ensures s == t {
      if Names(definition, Command) || Names(definition, Url) || Names(definition, Socket) {
        assert Names(definition, s) && Names(definition, t);
      } else {
        assert Names(existing, s) && Names(existing, t);
      }
    }
  }

  // If every layer names at most one of command, url and socket, so does the result.
  lemma {:induction false} OneTransport(defs: seq<Entry>, n: nat)
    requires n <= |defs|
    requires forall i :: 0 <= i < n ==> AtMostOneTransport(defs[i])
    ensures AtMostOneTransport(Effective(defs, n))
  {
    if n > 0 {
      OneTransport(defs, n - 1);
      MergeKeepsOneTransport(Effective(defs, n - 1), defs[n - 1]);
    }
  }

  // A definition naming no transport drops nothing.
  lemma KeepsWithoutTransport(existing: Entry, definition: Entry)
    requires !NamesTransport(definition)
    ensures MergeEntry(existing, definition) == existing + definition
  {
    assert forall k :: !Drops(existing, definition, k);
    assert Survivors(existing, definition) == existing;
  }

  // A transport key the entry holds, with whatever value.
  predicate HoldsTransport(e: Entry, s: Key) {
    IsTransport(s) && s in e
  }

  // The layer holds no transport key but t.
  ghost predicate OnlyTransport(e: Entry, t: Key) {
    forall s :: HoldsTransport(e, s) ==> s == t
  }

  // The entry's one transport key is t, with the given value.
  ghost predicate TransportIs(e: Entry, t: Key, value: Json) {
    t in e && e[t] == value && OnlyTransport(e, t)
  }

  // A definition holding no transport key leaves the transport keys alone, and
  // one holding some, none of them a string, overlays exactly these.
  lemma OverlayOfTransports(existing: Entry, definition: Entry, s: Key)
    requires !NamesTransport(definition) && IsTransport(s)
    ensures s in MergeEntry(existing, definition) <==> s in existing || s in definition
    ensures s in definition ==> MergeEntry(existing, definition)[s] == definition[s]
    ensures s in existing && s !in definition ==> MergeEntry(existing, definition)[s] == existing[s]
  {
    KeepsWithoutTransport(existing, definition);
  }

  // The layer naming t decides which transport keys there are after it.
  lemma SwitchIsComplete(existing: Entry, definition: Entry, t: Key)
    requires IsTransport(t) && Names(definition, t)
    ensures TransportIs(MergeEntry(existing, definition), t, definition[t]) <==> OnlyTransport(definition, t)
  {
    var merged := MergeEntry(existing, definition);
    if OnlyTransport(definition, t) {
      forall s | HoldsTransport(merged, s) ensures s == t {
        assert s != t ==> !HoldsTransport(definition, s) && SwitchDrops(definition, s);
      }
    } else {
      var s :| HoldsTransport(definition, s) && s != t;
      assert HoldsTransport(merged, s);
    }
  }

  // No layer from k + 1 to n - 1 holds a transport key.
  ghost predicate NoTransportAfter(defs: seq<Entry>, k: nat, n: nat)
    requires n <= |defs|
  {
    forall i, s :: k < i < n && IsTransport(s) ==> s !in defs[i]
  }

  // Let k be the last layer naming a transport, and t the one it names. The
  // effective entry has that transport, with that layer's value, and no other
  // transport key, if and only if that layer holds no other transport key and no
  // later one holds any. What the layers before it say does not matter.
  lemma {:induction false} TransportOfLastLayer(defs: seq<Entry>, n: nat, k: nat, t: Key)
    requires k < n <= |defs| && IsTransport(t) && Names(defs[k], t)
    requires forall i :: k < i < n ==> !NamesTransport(defs[i])
    ensures TransportIs(Effective(defs, n), t, defs[k][t]) <==>
      OnlyTransport(defs[k], t) && NoTransportAfter(defs, k, n)
    ensures t in Effective(defs, n)
    decreases n
  {
    var existing, definition := Effective(defs, n - 1), defs[n - 1];
    if k == n - 1 {
      SwitchIsComplete(existing, definition, t);
    } else {
      TransportOfLastLayer(defs, n - 1, k, t);
      if s :| IsTransport(s) && s in definition {
        OverlayOfTransports(existing, definition, s);
        assert HoldsTransport(Effective(defs, n), s);
        OverlayOfTransports(existing, definition, t);
      } else {
        UntouchedTransports(existing, definition, t, defs[k][t]);
      }
    }
  }

  lemma UntouchedTransports(existing: Entry, definition: Entry, t: Key, value: Json)
    requires IsTransport(t) && forall s :: IsTransport(s) ==> s !in definition
    ensures TransportIs(MergeEntry(existing, definition), t, value) <==> TransportIs(existing, t, value)
    ensures t in MergeEntry(existing, definition) <==> t in existing
  {
    var merged := MergeEntry(existing, definition);
    forall s | IsTransport(s)
      ensures (s in merged <==> s in existing) && (s in existing ==> merged[s] == existing[s])
    {
      OverlayOfTransports(existing, definition, s);
    }
    assert forall s :: HoldsTransport(merged, s) <==> HoldsTransport(existing, s);
  }

  // In particular where the transport fields from layer k on are strings, one a layer.
  lemma TypedTransportOfLastLayer(defs: seq<Entry>, n: nat, k: nat, t: Key)
    requires k < n <= |defs| && IsTransport(t) && Names(defs[k], t)
    requires forall i :: k <= i < n ==> AtMostOneTransport(defs[i]) && TypedTransports(defs[i])
    requires forall i :: k < i < n ==> !NamesTransport(defs[i])
    ensures TransportIs(Effective(defs, n), t, defs[k][t])
  {
    TransportOfLastLayer(defs, n, k, t);
    forall s | HoldsTransport(defs[k], s) ensures s == t {
      assert Names(defs[k], s);
    }
    forall i, s | k < i < n && IsTransport(s) ensures s !in defs[i] {
      assert !NamesTransport(defs[i]) && TypedTransports(defs[i]);
    }
  }

  // What a layer's transport does not use is gone: if it is there again in the
  // end, that layer or a later one supplied it.
  lemma {:induction false} NothingOutlivesASwitch(defs: seq<Entry>, n: nat, j: nat, k: Key) returns (i: nat)
    requires j < n <= |defs| && SwitchDrops(defs[j], k) && k in Effective(defs, n)
    ensures j <= i < n && k in defs[i] && Effective(defs, n)[k] == defs[i][k]
    decreases n
  {
    if k in defs[n - 1] {
      i := n - 1;
    } else {
      assert k in Effective(defs, n - 1) && !Drops(Effective(defs, n - 1), defs[n - 1], k);
      i := NothingOutlivesASwitch(defs, n - 1, j, k);
    }
  }

  // Without typed fields a later layer may take the transport away.
  lemma UntypedLayerErasesTransport(defs: seq<Entry>, n: nat, k: nat, t: Key)
    requires k < n - 1 && n <= |defs| && IsTransport(t) && Names(defs[k], t)
    requires forall i :: k < i < n ==> !NamesTransport(defs[i])
    requires t in defs[n - 1]
    ensures t in Effective(defs, n) && !Names(Effective(defs, n), t)
  {
    OverlayOfTransports(Effective(defs, n - 1), defs[n - 1], t);
    assert !NamesTransport(defs[n - 1]);
  }
}
