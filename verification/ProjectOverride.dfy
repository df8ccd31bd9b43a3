// Enabling or disabling one server by editing the project file, against what
// the loader computes from that file and every other configuration source.
module ProjectOverride {
  import opened ConfigMerge

  datatype Failure = Unreadable | ServersNotObject | ServerNotObject | UnsupportedImport

  datatype Result<T> = Ok(value: T) | Err(error: Failure)

  datatype FileContent = Missing | Unparsable | Parsed(json: Json)

  // What each import kind loads, and which kinds exist.
  datatype ImportTable = ImportTable(loads: map<Json, Servers>, kinds: set<string>)

  // Everything the loader reads besides the project file: discovered host
  // configs, the sources below the project file (imports expanded), packages
  // and plugins.
  datatype Sources = Sources(
    host: Servers, lower: seq<Servers>, imports: ImportTable, plugins: Servers, packages: Servers)

  // --- The loader -----------------------------------------------------------

  function Members(content: FileContent): map<Key, Json> {
    if content.Parsed? && content.json.Object? then content.json.members else map[]
  }

  function ObjectEntries(servers: map<Key, Json>): Servers {
    map name | name in servers && servers[name].Object? :: servers[name].members
  }

  // raw.mcpServers ?? raw["mcp-servers"], keeping the entries that are objects.
  function OwnServers(raw: map<Key, Json>): Servers {
    var v := if McpServers in raw && raw[McpServers] != Null then raw[McpServers]
             else if McpDashServers in raw then raw[McpDashServers]
             else Null;
    if v.Object? then ObjectEntries(v.members) else map[]
  }

  function ImportKinds(raw: map<Key, Json>): seq<Json> {
    if Imports in raw && raw[Imports].Array? then raw[Imports].items else []
  }

  // The first kind that defines a server wins.
  function ImportedServers(kinds: seq<Json>, table: ImportTable): Servers {
    if kinds == [] then map[]
    else
      var first := if kinds[0] in table.loads then table.loads[kinds[0]] else map[];
      ImportedServers(kinds[1..], table) + first
  }

  // What import kind i loads for a server, empty when it loads none.
  function LoadsFor(kinds: seq<Json>, table: ImportTable, i: nat, name: Key): Entry
    requires i < |kinds|
  {
    if kinds[i] in table.loads then Get(table.loads[kinds[i]], name) else map[]
  }

  predicate Defines(kinds: seq<Json>, table: ImportTable, i: nat, name: Key)
    requires i < |kinds|
  {
    kinds[i] in table.loads && name in table.loads[kinds[i]]
  }

  // An imported server comes from the first kind in order that defines it.
  lemma {:induction false} FirstImportWins(kinds: seq<Json>, table: ImportTable, i: nat, name: Key)
    requires i < |kinds| && Defines(kinds, table, i, name)
    requires forall j :: 0 <= j < i ==> !Defines(kinds, table, j, name)
    ensures name in ImportedServers(kinds, table)
    ensures ImportedServers(kinds, table)[name] == LoadsFor(kinds, table, i, name)
    decreases i
  {
    if i > 0 {
      assert !Defines(kinds, table, 0, name);
      forall j | 0 <= j < i - 1 ensures !Defines(kinds[1..], table, j, name) {
        assert !Defines(kinds, table, j + 1, name);
      }
      FirstImportWins(kinds[1..], table, i - 1, name);
    }
  }

  function FileLayer(raw: map<Key, Json>, table: ImportTable): Servers {
    Merged(ImportedServers(ImportKinds(raw), table), OwnServers(raw))
  }

  function Loaded(s: Sources, raw: map<Key, Json>): Servers {
    var config := Merged(FoldFrom(s.host, s.lower, |s.lower|), FileLayer(raw, s.imports));
    Merged(s.packages - s.plugins.Keys, Merged(s.plugins, config))
  }

  predicate IsDisabled(e: Entry) {
    Disabled in e && e[Disabled] == Bool(true)
  }

  // --- The writer -----------------------------------------------------------

  function ServersKey(raw: map<Key, Json>): Key {
    if McpServers in raw then McpServers
    else if McpDashServers in raw then McpDashServers
    else McpServers
  }

  function RawServers(raw: map<Key, Json>): map<Key, Json> {
    var k := ServersKey(raw);
    if k in raw && raw[k].Object? then raw[k].members else map[]
  }

  // The configuration below the project file's own entries, as the writer sees it.
  function LowerConfig(s: Sources, raw: map<Key, Json>): Servers {
    Merged(Fold(s.lower), ImportedServers(ImportKinds(raw), s.imports))
  }

  predicate ImportsSupported(raw: map<Key, Json>, table: ImportTable) {
    Imports in raw ==>
      && raw[Imports].Array?
      && forall kind <- raw[Imports].items :: kind.Str? && kind.text in table.kinds
  }

  function WriteFailure(s: Sources, raw: map<Key, Json>, server: Key, disabled: bool): Result<()> {
    var k := ServersKey(raw);
    if k in raw && !raw[k].Object? then Err(ServersNotObject)
    else if server in RawServers(raw) && !RawServers(raw)[server].Object? then Err(ServerNotObject)
    else if !disabled && !ImportsSupported(raw, s.imports) then Err(UnsupportedImport)
    else Ok(())
  }

  // The server's own entry after the edit.
  function EditedEntry(s: Sources, raw: map<Key, Json>, server: Key, disabled: bool): Entry {
    var existing := Get(ObjectEntries(RawServers(raw)), server);
    if disabled then existing[Disabled := Bool(true)]
    else if IsDisabled(Get(LowerConfig(s, raw), server)) then (existing - {Disabled})[Disabled := Bool(false)]
    else existing - {Disabled}
  }

  predicate Unchanged(servers: map<Key, Json>, server: Key, next: Entry) {
    if server in servers then servers[server] == Object(next) else next == map[]
  }

  // The file after the edit: an entry left empty is removed, and nothing is
  // written when the entry does not change.
  function Edited(raw: map<Key, Json>, server: Key, next: Entry): map<Key, Json> {
    var servers := RawServers(raw);
    if Unchanged(servers, server, next) then raw
    else if next == map[] then raw[ServersKey(raw) := Object(servers - {server})]
    else raw[ServersKey(raw) := Object(servers[server := Object(next)])]
  }

  // --- What an edit changes -------------------------------------------------

  // Equal up to the disabled flag.
  predicate SameBody(a: Entry, b: Entry) {
    a - {Disabled} == b - {Disabled}
  }

  lemma SameField(a: Entry, b: Entry, k: Key)
    requires SameBody(a, b) && k != Disabled
    ensures k in a <==> k in b
    ensures k in a ==> a[k] == b[k]
  {
    assert k in a <==> k in a - {Disabled};
    assert k in b <==> k in b - {Disabled};
    if k in a {
      assert (a - {Disabled})[k] == a[k] && (b - {Disabled})[k] == b[k];
    }
  }

  // Merging never looks at, drops or invents a disabled flag.
  lemma MergeIgnoresFlag(b: Entry, c: Entry, d: Entry)
    requires SameBody(c, d)
    ensures SameBody(MergeEntry(b, c), MergeEntry(b, d))
  {
    forall k | k != Disabled ensures (k in c <==> k in d) && (k in c ==> c[k] == d[k]) {
      SameField(c, d, k);
    }
    assert forall k :: Drops(b, c, k) == Drops(b, d, k);
    assert MergeEntry(b, c) - {Disabled} == MergeEntry(b, d) - {Disabled};
  }

  // What an entry says about the disabled flag, and the nearer of two sayings.
  datatype Flag = Unset | Set(value: Json)

  function FlagOf(e: Entry): Flag {
    if Disabled in e then Set(e[Disabled]) else Unset
  }

  function Nearer(near: Flag, far: Flag): Flag {
    if near.Set? then near else far
  }

  lemma FlagOfMerge(b: Entry, d: Entry)
    ensures FlagOf(MergeEntry(b, d)) == Nearer(FlagOf(d), FlagOf(b))
  {
    assert !Drops(b, d, Disabled);
  }

  // The flag the layers end with, from whatever they start on.
  lemma {:induction false} FlagOfLayers(start: Entry, defs: seq<Entry>, n: nat)
    requires n <= |defs|
    ensures FlagOf(EffectiveFrom(start, defs, n)) == Nearer(FlagOf(Effective(defs, n)), FlagOf(start))
    decreases n
  {
    if n > 0 {
      FlagOfLayers(start, defs, n - 1);
      FlagOfMerge(EffectiveFrom(start, defs, n - 1), defs[n - 1]);
      FlagOfMerge(Effective(defs, n - 1), defs[n - 1]);
    }
  }

  lemma FlagOfFold(base: Servers, layers: seq<Servers>, name: Key)
    ensures FlagOf(Get(FoldFrom(base, layers, |layers|), name))
         == Nearer(FlagOf(Get(Fold(layers), name)), FlagOf(Get(base, name)))
  {
    var defs := Definitions(layers, name);
    FoldIsPerServer(base, layers, name, defs);
    FoldIsPerServer(map[], layers, name, defs);
    FlagOfLayers(Get(base, name), defs, |layers|);
  }

  // The layers the project file's own entry for a server is merged over, from
  // the nearest outwards.
  function Over(s: Sources, raw: map<Key, Json>, name: Key, own: Entry): Entry {
    var imported := Get(ImportedServers(ImportKinds(raw), s.imports), name);
    var lower := Get(FoldFrom(s.host, s.lower, |s.lower|), name);
    MergeEntry(Get(s.packages - s.plugins.Keys, name),
      MergeEntry(Get(s.plugins, name), MergeEntry(lower, MergeEntry(imported, own))))
  }

  lemma LoadedIsOver(s: Sources, raw: map<Key, Json>, name: Key)
    ensures Get(Loaded(s, raw), name) == Over(s, raw, name, Get(OwnServers(raw), name))
  {
    var imported := ImportedServers(ImportKinds(raw), s.imports);
    var lower := FoldFrom(s.host, s.lower, |s.lower|);
    GetMerged(imported, OwnServers(raw), name);
    GetMerged(lower, FileLayer(raw, s.imports), name);
    GetMerged(s.plugins, Merged(lower, FileLayer(raw, s.imports)), name);
    GetMerged(s.packages - s.plugins.Keys, Merged(s.plugins, Merged(lower, FileLayer(raw, s.imports))), name);
  }

  lemma OverIgnoresFlag(s: Sources, raw: map<Key, Json>, name: Key, c: Entry, d: Entry)
    requires SameBody(c, d)
    ensures SameBody(Over(s, raw, name, c), Over(s, raw, name, d))
  {
    var imported := Get(ImportedServers(ImportKinds(raw), s.imports), name);
    var lower := Get(FoldFrom(s.host, s.lower, |s.lower|), name);
    MergeIgnoresFlag(imported, c, d);
    MergeIgnoresFlag(lower, MergeEntry(imported, c), MergeEntry(imported, d));
    var c', d' := MergeEntry(lower, MergeEntry(imported, c)), MergeEntry(lower, MergeEntry(imported, d));
    MergeIgnoresFlag(Get(s.plugins, name), c', d');
    MergeIgnoresFlag(Get(s.packages - s.plugins.Keys, name),
      MergeEntry(Get(s.plugins, name), c'), MergeEntry(Get(s.plugins, name), d'));
  }

  lemma ObjectEntriesAfter(servers: map<Key, Json>, server: Key, next: Entry)
    ensures
      var after := ObjectEntries(servers[server := Object(next)]);
      && Get(after, server) == next
      && forall name :: name != server ==>
           (name in after <==> name in ObjectEntries(servers)) && Get(after, name) == Get(ObjectEntries(servers), name)
    ensures
      var after := ObjectEntries(servers - {server});
      && Get(after, server) == map[]
      && forall name :: name != server ==>
           (name in after <==> name in ObjectEntries(servers)) && Get(after, name) == Get(ObjectEntries(servers), name)
  {
  }

  // The edit touches no server but its own, and the loader reads the new entry.
  lemma EditIsLocal(s: Sources, raw: map<Key, Json>, server: Key, disabled: bool, next: Entry)
    requires WriteFailure(s, raw, server, disabled).Ok?
    ensures
      var after := Edited(raw, server, next);
      && ImportKinds(after) == ImportKinds(raw)
      && Get(OwnServers(after), server) == next
      && forall name :: name != server ==>
           (name in OwnServers(after) <==> name in OwnServers(raw)) &&
           Get(OwnServers(after), name) == Get(OwnServers(raw), name)
  {
    OwnIsRaw(s, raw, server, disabled);
    var servers, after := RawServers(raw), Edited(raw, server, next);
    if !Unchanged(servers, server, next) {
      ObjectEntriesAfter(servers, server, next);
      RewrittenServers(raw, if next == map[] then servers - {server} else servers[server := Object(next)]);
    }
  }

  lemma RewrittenServers(raw: map<Key, Json>, servers: map<Key, Json>)
    ensures OwnServers(raw[ServersKey(raw) := Object(servers)]) == ObjectEntries(servers)
    ensures ImportKinds(raw[ServersKey(raw) := Object(servers)]) == ImportKinds(raw)
  {
  }

  lemma OwnIsRaw(s: Sources, raw: map<Key, Json>, server: Key, disabled: bool)
    requires WriteFailure(s, raw, server, disabled).Ok?
    ensures OwnServers(raw) == ObjectEntries(RawServers(raw))
  {
  }

  lemma EditedEntryKeepsBody(s: Sources, raw: map<Key, Json>, server: Key, disabled: bool)
    requires WriteFailure(s, raw, server, disabled).Ok?
    ensures SameBody(EditedEntry(s, raw, server, disabled), Get(OwnServers(raw), server))
  {
    OwnIsRaw(s, raw, server, disabled);
  }

  // What hosts, plugins and packages alone say about a server.
  function Background(s: Sources, name: Key): Entry {
    MergeEntry(Get(s.packages - s.plugins.Keys, name), MergeEntry(Get(s.plugins, name), Get(s.host, name)))
  }

  // Disabling always takes effect. Enabling does exactly when the layers the
  // writer looked at carry a flag, or the layers it did not look at leave the
  // server enabled.
  predicate TakesEffect(s: Sources, raw: map<Key, Json>, server: Key, disabled: bool) {
    disabled || Disabled in Get(LowerConfig(s, raw), server) || !IsDisabled(Background(s, server))
  }

  lemma FlagOfOver(s: Sources, raw: map<Key, Json>, name: Key, own: Entry)
    ensures FlagOf(Over(s, raw, name, own))
         == Nearer(FlagOf(own), Nearer(FlagOf(Get(LowerConfig(s, raw), name)), FlagOf(Background(s, name))))
  {
    var imported := Get(ImportedServers(ImportKinds(raw), s.imports), name);
    var lower := Get(FoldFrom(s.host, s.lower, |s.lower|), name);
    FlagOfMerge(imported, own);
    FlagOfMerge(lower, MergeEntry(imported, own));
    FlagOfOuter(s, name, MergeEntry(lower, MergeEntry(imported, own)));
    FlagOfOuter(s, name, Get(s.host, name));
    FlagOfFold(s.host, s.lower, name);
    GetMerged(Fold(s.lower), ImportedServers(ImportKinds(raw), s.imports), name);
    FlagOfMerge(Get(Fold(s.lower), name), imported);
  }

  lemma FlagOfOuter(s: Sources, name: Key, config: Entry)
    ensures
      var packages, plugins := Get(s.packages - s.plugins.Keys, name), Get(s.plugins, name);
      FlagOf(MergeEntry(packages, MergeEntry(plugins, config)))
        == Nearer(FlagOf(config), Nearer(FlagOf(plugins), FlagOf(packages)))
  {
    var packages, plugins := Get(s.packages - s.plugins.Keys, name), Get(s.plugins, name);
    FlagOfMerge(plugins, config);
    FlagOfMerge(packages, MergeEntry(plugins, config));
  }

  lemma FlagAfterEdit(s: Sources, raw: map<Key, Json>, server: Key, disabled: bool)
    ensures
      var own := EditedEntry(s, raw, server, disabled);
      (IsDisabled(Over(s, raw, server, own)) == disabled) <==> TakesEffect(s, raw, server, disabled)
  {
    FlagOfOver(s, raw, server, EditedEntry(s, raw, server, disabled));
  }

  // Every other server's effective entry and every other field of this one are
  // what they were, and the disabled flag is the requested one exactly when
  // TakesEffect says so.
  ghost predicate ExactlyOverridden(
    s: Sources, raw: map<Key, Json>, after: map<Key, Json>, server: Key, disabled: bool)
  {
    && (forall name :: name != server ==> SameServer(Loaded(s, after), Loaded(s, raw), name))
    && SameBody(Get(Loaded(s, after), server), Get(Loaded(s, raw), server))
    && (IsDisabled(Get(Loaded(s, after), server)) == disabled <==> TakesEffect(s, raw, server, disabled))
  }

  predicate SameServer(a: Servers, b: Servers, name: Key) {
    (name in a <==> name in b) && Get(a, name) == Get(b, name)
  }

  lemma OverrideIsExact(s: Sources, raw: map<Key, Json>, server: Key, disabled: bool)
    requires WriteFailure(s, raw, server, disabled).Ok?
    ensures ExactlyOverridden(s, raw, Edited(raw, server, EditedEntry(s, raw, server, disabled)), server, disabled)
  {
    var next := EditedEntry(s, raw, server, disabled);
    var after := Edited(raw, server, next);
    EditIsLocal(s, raw, server, disabled, next);
    forall name | name != server ensures SameServer(Loaded(s, after), Loaded(s, raw), name) {
      LoadedIsOver(s, raw, name);
      LoadedIsOver(s, after, name);
    }
    LoadedIsOver(s, raw, server);
    LoadedIsOver(s, after, server);
    EditedEntryKeepsBody(s, raw, server, disabled);
    OverIgnoresFlag(s, raw, server, next, Get(OwnServers(raw), server));
    FlagAfterEdit(s, raw, server, disabled);
  }

  // Enabling a server that only a package disables has no effect: the file is
  // left without an entry, and the loader still ends with the server disabled.
  lemma EnableCanFail(server: Key)
    ensures
      var off: Servers := map[server := map[Disabled := Bool(true)]];
      var s := Sources(map[], [], ImportTable(map[], {}), map[], off);
      var after := Edited(map[], server, EditedEntry(s, map[], server, false));
      && WriteFailure(s, map[], server, false).Ok?
      && !TakesEffect(s, map[], server, false)
      && IsDisabled(Get(Loaded(s, after), server))
  {
    var off: Servers := map[server := map[Disabled := Bool(true)]];
    var s := Sources(map[], [], ImportTable(map[], {}), map[], off);
    NothingBelow(s, server);
    FlagOfOuter(s, server, map[]);
    assert s.packages - s.plugins.Keys == off;
    OverrideIsExact(s, map[], server, false);
  }

  lemma NothingBelow(s: Sources, server: Key)
    requires s.lower == []
    ensures Get(LowerConfig(s, map[]), server) == map[]
  {
    GetMerged(Fold(s.lower), ImportedServers([], s.imports), server);
    assert MergeEntry(map[], map[]) == map[];
  }

  // --- What is accepted ----------------------------------------------------

  datatype Held = Absent | Present(json: Json)

  // What the file holds under its servers key.
  function HeldServers(raw: map<Key, Json>): Held {
    if McpServers in raw then Present(raw[McpServers])
    else if McpDashServers in raw then Present(raw[McpDashServers])
    else Absent
  }

  function HeldEntry(raw: map<Key, Json>, server: Key): Held {
    match HeldServers(raw)
    case Present(Object(servers)) => if server in servers then Present(servers[server]) else Absent
    case _ => Absent
  }

  predicate AbsentOrObject(h: Held) {
    h.Absent? || h.json.Object?
  }

  // No imports, or a list of known kinds.
  predicate ImportsKnown(raw: map<Key, Json>, table: ImportTable) {
    Imports in raw ==>
      match raw[Imports]
      case Array(items) => forall i :: 0 <= i < |items| ==> items[i].Str? && items[i].text in table.kinds
      case _ => false
  }

  // Disabling is accepted whatever the imports, enabling only when all are known.
  lemma AcceptedExactly(s: Sources, raw: map<Key, Json>, server: Key, disabled: bool)
    ensures
      var r := WriteFailure(s, raw, server, disabled);
      var servers, entry := AbsentOrObject(HeldServers(raw)), AbsentOrObject(HeldEntry(raw, server));
      && (r.Ok? <==> servers && entry && (disabled || ImportsKnown(raw, s.imports)))
      && (r == Err(ServersNotObject) <==> !servers)
      && (r == Err(ServerNotObject) <==> servers && !entry)
      && (r == Err(UnsupportedImport) <==> servers && entry && !disabled && !ImportsKnown(raw, s.imports))
  {
    if Imports in raw && raw[Imports].Array? {
      var items := raw[Imports].items;
      assert forall i :: 0 <= i < |items| ==> items[i] in items;
    }
  }

  // What the file then says of the server: the flag asked for, but false only where
  // a lower source disables it.
  lemma WrittenFlag(s: Sources, raw: map<Key, Json>, server: Key, disabled: bool)
    requires WriteFailure(s, raw, server, disabled).Ok?
    ensures
      var after := Edited(raw, server, EditedEntry(s, raw, server, disabled));
      FlagOf(Get(OwnServers(after), server)) ==
        if disabled then Set(Bool(true))
        else if IsDisabled(Get(LowerConfig(s, raw), server)) then Set(Bool(false))
        else Unset
  {
    EditIsLocal(s, raw, server, disabled, EditedEntry(s, raw, server, disabled));
  }

  // What an edit writes: nothing when the entry is what it was, and no entry when
  // it is left empty; under the key there is, or under mcpServers.
  lemma WrittenExactly(raw: map<Key, Json>, server: Key, next: Entry)
    requires AbsentOrObject(HeldServers(raw))
    ensures
      var after, held := Edited(raw, server, next), HeldEntry(raw, server);
      if held == Present(Object(next)) || (held.Absent? && next == map[]) then after == raw
      else
        && HeldEntry(after, server) == (if next == map[] then Absent else Present(Object(next)))
        && (McpDashServers in after <==> McpDashServers in raw)
        && (McpServers in after <==> McpServers in raw || McpDashServers !in raw)
    ensures
      forall k :: k != McpServers && k != McpDashServers ==>
        (k in Edited(raw, server, next) <==> k in raw) && (k in raw ==> Edited(raw, server, next)[k] == raw[k])
  {
  }

  // A server that some import kind defines is loaded, from the first such kind and
  // with the file's own entry over it.
  lemma ImportedServerIsLoaded(s: Sources, raw: map<Key, Json>, kinds: seq<Json>, i: nat, name: Key)
    requires Imports in raw && raw[Imports] == Array(kinds)
    requires i < |kinds| && Defines(kinds, s.imports, i, name)
    requires forall j :: 0 <= j < i ==> !Defines(kinds, s.imports, j, name)
    ensures name in Loaded(s, raw)
    ensures Get(FileLayer(raw, s.imports), name) ==
      MergeEntry(LoadsFor(kinds, s.imports, i, name), Get(OwnServers(raw), name))
  {
    FirstImportWins(kinds, s.imports, i, name);
    GetMerged(ImportedServers(kinds, s.imports), OwnServers(raw), name);
    FileServerIsLoaded(s, raw, name);
  }

  lemma FileServerIsLoaded(s: Sources, raw: map<Key, Json>, name: Key)
    requires name in ImportedServers(ImportKinds(raw), s.imports) || name in OwnServers(raw)
    ensures name in FileLayer(raw, s.imports) && name in Loaded(s, raw)
  {
  }

  // So disabling works for every file whose servers and whose entry are objects or
  // absent: the loader ends with the server disabled.
  lemma DisablingDisables(s: Sources, raw: map<Key, Json>, server: Key)
    requires AbsentOrObject(HeldServers(raw)) && AbsentOrObject(HeldEntry(raw, server))
    ensures WriteFailure(s, raw, server, true).Ok?
    ensures IsDisabled(Get(Loaded(s, Edited(raw, server, EditedEntry(s, raw, server, true))), server))
  {
    AcceptedExactly(s, raw, server, true);
    OverrideIsExact(s, raw, server, true);
  }

  // An object with such entries, or no file yet.
  predicate Accepts(content: FileContent, table: ImportTable, server: Key, disabled: bool) {
    && (content.Missing? || (content.Parsed? && content.json.Object?))
    && AcceptsMembers(Members(content), table, server, disabled)
  }

  predicate AcceptsMembers(raw: map<Key, Json>, table: ImportTable, server: Key, disabled: bool) {
    && AbsentOrObject(HeldServers(raw)) && AbsentOrObject(HeldEntry(raw, server))
    && (disabled || ImportsKnown(raw, table))
  }

  lemma EditOutcome(s: Sources, raw: map<Key, Json>, server: Key, disabled: bool)
    ensures WriteFailure(s, raw, server, disabled).Ok? <==> AcceptsMembers(raw, s.imports, server, disabled)
    ensures
      WriteFailure(s, raw, server, disabled).Ok? && disabled ==>
        IsDisabled(Get(Loaded(s, Edited(raw, server, EditedEntry(s, raw, server, disabled))), server))
  {
    AcceptedExactly(s, raw, server, disabled);
    if WriteFailure(s, raw, server, disabled).Ok? && disabled {
      DisablingDisables(s, raw, server);
    }
  }

  class ProjectFile {
    var content: FileContent

    // Either fails and leaves the file alone, or writes the edit.
    method WriteServerDisabledOverride(s: Sources, server: Key, disabled: bool) returns (r: Result<()>)
      modifies this
      ensures old(content).Unparsable? || (old(content).Parsed? && !old(content).json.Object?) ==> r == Err(Unreadable)
      ensures old(content).Missing? || (old(content).Parsed? && old(content).json.Object?) ==>
        r == WriteFailure(s, Members(old(content)), server, disabled)
      ensures r.Err? ==> content == old(content)
      ensures r.Ok? ==>
        var raw := Members(old(content));
        Members(content) == Edited(raw, server, EditedEntry(s, raw, server, disabled))
      ensures r.Ok? <==> Accepts(old(content), s.imports, server, disabled)
      ensures r.Ok? && disabled ==> IsDisabled(Get(Loaded(s, Members(content)), server))
    {
      EditOutcome(s, Members(content), server, disabled);
      if content.Unparsable? || (content.Parsed? && !content.json.Object?) {
        return Err(Unreadable);
      }
      var raw := Members(content);
      r := CheckRawFile(s, raw, server, disabled);
      if r.Err? {
        return;
      }
      WriteEntry(raw, server, EditedEntry(s, raw, server, disabled));
    }

    // Writes the file when the entry changes, and drops an entry left empty.
    method WriteEntry(raw: map<Key, Json>, server: Key, next: Entry)
      requires raw == Members(content)
      modifies this
      ensures Members(content) == Edited(raw, server, next)
    {
      var serverKey := ServersKey(raw);
      var servers := RawServers(raw);
      if Unchanged(servers, server, next) {
        return;
      }
      servers := if next == map[] then servers - {server} else servers[server := Object(next)];
      content := Parsed(Object(raw[serverKey := Object(servers)]));
    }
  }

  method CheckRawFile(s: Sources, raw: map<Key, Json>, server: Key, disabled: bool) returns (r: Result<()>)
    ensures r == WriteFailure(s, raw, server, disabled)
  {
    var serverKey := ServersKey(raw);
    if serverKey in raw && !raw[serverKey].Object? {
      return Err(ServersNotObject);
    }
    var servers := RawServers(raw);
    if server in servers && !servers[server].Object? {
      return Err(ServerNotObject);
    }
    if !disabled && !ImportsSupported(raw, s.imports) {
      return Err(UnsupportedImport);
    }
    r := Ok(());
  }
}
