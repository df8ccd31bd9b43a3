// Where a credential of a loaded server comes from. The loader does not fold its
// layers from below: it merges them as a tree.
module LoadedCredentials {
  import opened ConfigMerge
  import opened ProjectOverride

  // Entries, and how they are merged.
  datatype Tree = Layer(entry: Entry) | Merge(lower: Tree, upper: Tree)

  function Value(t: Tree): Entry {
    match t
    case Layer(entry) => entry
    case Merge(lower, upper) => MergeEntry(Value(lower), Value(upper))
  }

  // The layer that supplies field f.
  function Supplier(t: Tree, f: Key): Entry {
    match t
    case Layer(entry) => entry
    case Merge(lower, upper) => if f in Value(upper) then Supplier(upper, f) else Supplier(lower, f)
  }

  // Field f is in every part of the tree from the root to its supplier, and no
  // such part ever had another url.
  ghost predicate NeverUnderAnotherUrl(t: Tree, f: Key, url: Json) {
    && f in Value(t)
    && (Url in Value(t) ==> Value(t)[Url] == url)
    && match t
       case Layer(_) => true
       case Merge(lower, upper) =>
         if f in Value(upper) then NeverUnderAnotherUrl(upper, f, url) else NeverUnderAnotherUrl(lower, f, url)
  }

  // The upper part switches the lower one away from its url.
  predicate TakesUrl(lower: Entry, upper: Entry) {
    Url in lower && Url !in upper && (Names(upper, Command) || Names(upper, Socket))
  }

  // No part above the supplier of field f switches away from any url but this one.
  predicate TakesOnly(t: Tree, f: Key, url: Json) {
    match t
    case Layer(_) => true
    case Merge(lower, upper) =>
      if f in Value(upper) then TakesOnly(upper, f, url)
      else TakesOnly(lower, f, url) && (TakesUrl(Value(lower), Value(upper)) ==> Value(lower)[Url] == url)
  }

  // A command or a socket, where there is one, is a string.
  predicate TypedSwitches(e: Entry) {
    (Command in e ==> e[Command].Str?) && (Socket in e ==> e[Socket].Str?)
  }

  predicate Typed(t: Tree) {
    match t
    case Layer(entry) => TypedSwitches(entry)
    case Merge(lower, upper) => Typed(lower) && Typed(upper)
  }

  // The supplier's value is the one in the end.
  lemma {:induction false} SupplierSupplies(t: Tree, f: Key)
    requires f in Value(t)
    ensures f in Supplier(t, f) && Supplier(t, f)[f] == Value(t)[f]
  {
    if t.Merge? {
      SupplierSupplies(if f in Value(t.upper) then t.upper else t.lower, f);
    }
  }

  lemma {:induction false} TypedValue(t: Tree)
    requires Typed(t)
    ensures TypedSwitches(Value(t))
  {
    if t.Merge? {
      TypedValue(t.lower);
      TypedValue(t.upper);
    }
  }

  // A credential was never merged under another url, if and only if no switch took
  // another url away above the layer that supplies it.
  lemma {:induction false} NeverUnderAnotherExactly(t: Tree, f: Key, url: Json)
    requires UrlBound(f) && f in Value(t) && !(f == OAuth && OAuthOff(Value(t)))
    requires url.Str? && (Url in Value(t) ==> Value(t)[Url] == url)
    ensures NeverUnderAnotherUrl(t, f, url) <==> TakesOnly(t, f, url)
  {
    if t.Merge? {
      var lower, upper := Value(t.lower), Value(t.upper);
      if f in upper {
        NeverUnderAnotherExactly(t.upper, f, url);
      } else {
        assert f in lower && !Drops(lower, upper, f);
        if Url in lower && lower[Url] != url {
          assert !NeverUnderAnotherUrl(t.lower, f, url);
          assert TakesUrl(lower, upper);
        } else {
          NeverUnderAnotherExactly(t.lower, f, url);
        }
      }
    }
  }

  // A switch takes every credential along except bearerTokenStore.
  lemma {:induction false} SwitchTakesCredential(t: Tree, f: Key, url: Json)
    requires f in Value(t) && HttpField(f)
    ensures TakesOnly(t, f, url)
  {
    if t.Merge? {
      if f in Value(t.upper) {
        SwitchTakesCredential(t.upper, f, url);
      } else {
        assert !SwitchDrops(Value(t.upper), f);
        SwitchTakesCredential(t.lower, f, url);
      }
    }
  }

  // bearerTokenStore stays behind. In a part without a url it never was under one
  // if a string must name the transport that took the url's place.
  lemma {:induction false} StoreNeverUnderAny(t: Tree, url: Json)
    requires BearerTokenStore in Value(t) && Url !in Value(t) && Typed(t) && !NamesTransport(Value(t))
    ensures NeverUnderAnotherUrl(t, BearerTokenStore, url)
  {
    if t.Merge? {
      TypedValue(t.upper);
      TypedValue(t.lower);
      assert !NamesTransport(Value(t.upper));
      if BearerTokenStore in Value(t.upper) {
        StoreNeverUnderAny(t.upper, url);
      } else {
        KeepsWithoutTransport(Value(t.lower), Value(t.upper));
        StoreNeverUnderAny(t.lower, url);
      }
    }
  }

  lemma {:induction false} StoreFollowsUrlWhenTyped(t: Tree)
    requires BearerTokenStore in Value(t) && Names(Value(t), Url) && Typed(t)
    ensures NeverUnderAnotherUrl(t, BearerTokenStore, Value(t)[Url])
  {
    if t.Merge? {
      if BearerTokenStore !in Value(t.upper) {
        assert !Drops(Value(t.lower), Value(t.upper), BearerTokenStore);
        StoreFollowsUrlWhenTyped(t.lower);
      } else if Url in Value(t.upper) {
        StoreFollowsUrlWhenTyped(t.upper);
      } else {
        TypedValue(t.upper);
        StoreNeverUnderAny(t.upper, Value(t)[Url]);
      }
    }
  }

  // However the layers are grouped: a credential of an entry with a string url was
  // never merged under another url, from the layer that supplies it on, if and only
  // if nothing switched away from another url in between. Of the credentials only
  // bearerTokenStore can stay behind in such a switch, and it does not end beside a
  // url where every command and socket is a string.
  lemma CredentialsFollowUrlInTree(t: Tree, f: Key)
    requires UrlBound(f) && f in Value(t) && Names(Value(t), Url) && !(f == OAuth && OAuthOff(Value(t)))
    ensures NeverUnderAnotherUrl(t, f, Value(t)[Url]) <==> TakesOnly(t, f, Value(t)[Url])
    ensures f != BearerTokenStore || Typed(t) ==> NeverUnderAnotherUrl(t, f, Value(t)[Url])
  {
    NeverUnderAnotherExactly(t, f, Value(t)[Url]);
    if f != BearerTokenStore {
      SwitchTakesCredential(t, f, Value(t)[Url]);
    } else if Typed(t) {
      StoreFollowsUrlWhenTyped(t);
    }
  }

  // --- The loader's tree ----------------------------------------------------

  function FoldTree(start: Tree, layers: seq<Tree>, n: nat): Tree
    requires n <= |layers|
  {
    if n == 0 then start else Merge(FoldTree(start, layers, n - 1), layers[n - 1])
  }

  // The project file: its own entries over the imported ones.
  function FileTree(s: Sources, raw: map<Key, Json>, name: Key): Tree {
    Merge(Layer(Get(ImportedServers(ImportKinds(raw), s.imports), name)), Layer(Get(OwnServers(raw), name)))
  }

  // Packages and plugins below the rest.
  function WithPlugins(s: Sources, config: Tree, name: Key): Tree {
    Merge(Layer(Get(s.packages - s.plugins.Keys, name)), Merge(Layer(Get(s.plugins, name)), config))
  }

  // host and lower hold, for the discovered hosts and for each source below the
  // project file, how it was put together.
  function LoadedTree(s: Sources, raw: map<Key, Json>, host: Tree, lower: seq<Tree>, name: Key): Tree {
    WithPlugins(s, Merge(FoldTree(host, lower, |lower|), FileTree(s, raw, name)), name)
  }

  ghost predicate Builds(s: Sources, host: Tree, lower: seq<Tree>, name: Key) {
    && Value(host) == Get(s.host, name)
    && |lower| == |s.lower| && forall i :: 0 <= i < |lower| ==> Value(lower[i]) == Get(s.lower[i], name)
  }

  // One more layer, merged onto equal entries.
  lemma FoldTreeStep(t: Tree, upper: Tree, base: Servers, next: Servers, name: Key)
    requires Value(t) == Get(base, name) && Value(upper) == Get(next, name)
    ensures Value(Merge(t, upper)) == Get(Merged(base, next), name)
  {
    GetMerged(base, next, name);
  }

  lemma {:induction false} FoldTreeValue(s: Sources, host: Tree, lower: seq<Tree>, name: Key, n: nat)
    requires Builds(s, host, lower, name) && n <= |lower|
    ensures Value(FoldTree(host, lower, n)) == Get(FoldFrom(s.host, s.lower, n), name)
  {
    if n > 0 {
      FoldTreeValue(s, host, lower, name, n - 1);
      FoldTreeStep(FoldTree(host, lower, n - 1), lower[n - 1], FoldFrom(s.host, s.lower, n - 1), s.lower[n - 1], name);
    }
  }

  lemma LoadedTreeValue(s: Sources, raw: map<Key, Json>, host: Tree, lower: seq<Tree>, name: Key)
    requires Builds(s, host, lower, name)
    ensures Value(LoadedTree(s, raw, host, lower, name)) == Get(Loaded(s, raw), name)
  {
    FoldTreeValue(s, host, lower, name, |lower|);
    WithPluginsValue(s, Merge(FoldTree(host, lower, |lower|), FileTree(s, raw, name)), name);
    FileTreeValue(s, raw, name);
    LoadedIsOver(s, raw, name);
  }

  lemma FileTreeValue(s: Sources, raw: map<Key, Json>, name: Key)
    ensures Value(FileTree(s, raw, name)) ==
      MergeEntry(Get(ImportedServers(ImportKinds(raw), s.imports), name), Get(OwnServers(raw), name))
  {
  }

  lemma WithPluginsValue(s: Sources, config: Tree, name: Key)
    ensures Value(WithPlugins(s, config, name)) ==
      MergeEntry(Get(s.packages - s.plugins.Keys, name), MergeEntry(Get(s.plugins, name), Value(config)))
  {
    var inner := Merge(Layer(Get(s.plugins, name)), config);
    assert Value(inner) == MergeEntry(Get(s.plugins, name), Value(config));
  }

  // A credential the loader ends with, beside a string url, was never merged under
  // another url on the way, on the same condition, and the layer that supplies it
  // is the one named.
  lemma CredentialsOfLoaded(
    s: Sources, raw: map<Key, Json>, host: Tree, lower: seq<Tree>, name: Key, f: Key)
    requires Builds(s, host, lower, name) && UrlBound(f)
    requires
      var now := Get(Loaded(s, raw), name);
      f in now && Names(now, Url) && !(f == OAuth && OAuthOff(now))
    ensures
      var t, now := LoadedTree(s, raw, host, lower, name), Get(Loaded(s, raw), name);
      && Value(t) == now
      && (NeverUnderAnotherUrl(t, f, now[Url]) <==> TakesOnly(t, f, now[Url]))
      && (f != BearerTokenStore || Typed(t) ==> NeverUnderAnotherUrl(t, f, now[Url]))
      && f in Supplier(t, f) && Supplier(t, f)[f] == now[f]
  {
    LoadedTreeValue(s, raw, host, lower, name);
    CredentialsFollowUrlInTree(LoadedTree(s, raw, host, lower, name), f);
    SupplierSupplies(LoadedTree(s, raw, host, lower, name), f);
  }

  // It can fail: bearerTokenStore ends up under another url where one layer switches
  // to a command, the next takes the command back, and a package supplies its url.
  lemma StoreEndsUnderAnotherUrl(name: Key, u: string, v: string)
    requires u != v
    ensures
      var s := SwitchedAndBack(name, u, v);
      var lower := [Layer(Stored(u)), Layer(Switched(Str(""))), Layer(Switched(Null))];
      var now := Get(Loaded(s, map[]), name);
      && Builds(s, Layer(map[]), lower, name) && UrlIs(now, Str(v)) && BearerTokenStore in now
      && !NeverUnderAnotherUrl(LoadedTree(s, map[], Layer(map[]), lower, name), BearerTokenStore, Str(v))
  {
    var s := SwitchedAndBack(name, u, v);
    var lower := [Layer(Stored(u)), Layer(Switched(Str(""))), Layer(Switched(Null))];
    assert Builds(s, Layer(map[]), lower, name);
    TakenBack(u, v, lower);
    FileTreeValue(s, map[], name);
    OverNothing(map[]);
    var config := Merge(FoldTree(Layer(map[]), lower, 3), FileTree(s, map[], name));
    KeepsWithoutTransport(Value(FoldTree(Layer(map[]), lower, 3)), map[]);
    assert Value(config) == TAKEN_BACK && !NeverUnderAnotherUrl(config, BearerTokenStore, Str(v));
    LoadedTreeValue(s, map[], Layer(map[]), lower, name);
    PluginsBelow(s, config, name, v);
  }

  const TAKEN_BACK: Entry := map[BearerTokenStore := Bool(true), Command := Null]

  lemma OverNothing(e: Entry)
    ensures MergeEntry(map[], e) == e
  {
  }

  lemma PluginsBelow(s: Sources, config: Tree, name: Key, v: string)
    requires s.plugins == map[] && s.packages == map[name := map[Url := Str(v)]]
    requires Value(config) == TAKEN_BACK && !NeverUnderAnotherUrl(config, BearerTokenStore, Str(v))
    ensures
      var t := WithPlugins(s, config, name);
      && UrlIs(Value(t), Str(v)) && BearerTokenStore in Value(t)
      && !NeverUnderAnotherUrl(t, BearerTokenStore, Str(v))
  {
    assert s.packages - s.plugins.Keys == s.packages;
    var package: Entry := map[Url := Str(v)];
    var inner := Merge(Layer(map[]), config);
    assert WithPlugins(s, config, name) == Merge(Layer(package), inner);
    OverNothing(TAKEN_BACK);
    assert Value(inner) == TAKEN_BACK && !NeverUnderAnotherUrl(inner, BearerTokenStore, Str(v));
    KeepsWithoutTransport(package, TAKEN_BACK);
    assert Value(Merge(Layer(package), inner)) == package + TAKEN_BACK;
  }

  function Stored(u: string): Entry {
    map[Url := Str(u), BearerTokenStore := Bool(true)]
  }

  function Switched(command: Json): Entry {
    map[Command := command]
  }

  function SwitchedAndBack(name: Key, u: string, v: string): Sources {
    var lower := [map[name := Stored(u)], map[name := Switched(Str(""))], map[name := Switched(Null)]];
    Sources(map[], lower, ImportTable(map[], {}), map[], map[name := map[Url := Str(v)]])
  }

  lemma TakenBack(u: string, v: string, lower: seq<Tree>)
    requires u != v && lower == [Layer(Stored(u)), Layer(Switched(Str(""))), Layer(Switched(Null))]
    ensures
      var below := FoldTree(Layer(map[]), lower, 3);
      && Value(below) == TAKEN_BACK
      && !NeverUnderAnotherUrl(below, BearerTokenStore, Str(v))
  {
    var none := FoldTree(Layer(map[]), lower, 0);
    var one, two := Merge(none, lower[0]), Merge(Merge(none, lower[0]), lower[1]);
    assert FoldTree(Layer(map[]), lower, 1) == one;
    assert FoldTree(Layer(map[]), lower, 2) == two;
    assert FoldTree(Layer(map[]), lower, 3) == Merge(two, lower[2]);
    OverNothing(Stored(u));
    SwitchKeepsStore(u);
    assert Value(one) == Stored(u) && Value(two) == MergeEntry(Stored(u), Switched(Str("")));
    assert !NeverUnderAnotherUrl(one, BearerTokenStore, Str(v));
    assert !NeverUnderAnotherUrl(two, BearerTokenStore, Str(v));
  }

  lemma SwitchKeepsStore(u: string)
    ensures
      var switched := MergeEntry(Stored(u), Switched(Str("")));
      switched == map[BearerTokenStore := Bool(true), Command := Str("")]
      && MergeEntry(switched, Switched(Null)) == TAKEN_BACK
  {
    KeepsWithoutTransport(MergeEntry(Stored(u), Switched(Str(""))), Switched(Null));
  }
}
