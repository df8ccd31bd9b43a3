// Whether it matters in which order three layers are merged. The loader merges a
// file with its imports before laying it over the files below, and all of these
// before plugins and packages; the writer of the disabled flag lays the imports
// over the files below as a layer of their own.
module Regrouping {
  import opened ConfigMerge

  // Both groupings say the same about field f.
  predicate Agree(a: Entry, b: Entry, c: Entry, f: Key) {
    var folded, grouped := MergeEntry(MergeEntry(a, b), c), MergeEntry(a, MergeEntry(b, c));
    (f in folded <==> f in grouped) && (f in folded ==> folded[f] == grouped[f])
  }

  // The fields that merging may drop at all.
  predicate Droppable(f: Key) {
    StdioField(f) || HttpField(f) || UrlBoundField(f) || f == Socket
  }

  // The layer holds no transport key.
  predicate Transportless(c: Entry) {
    Command !in c && Url !in c && Socket !in c
  }

  // Whether layer c leaves no difference between the groupings, at field f.
  predicate Settles(c: Entry, f: Key) {
    || f in c || !Droppable(f)
    || if f == BearerTokenStore then !NamesTransport(c) && Url !in c else Transportless(c) || SwitchDrops(c, f)
  }

  // --- Where the groupings agree -------------------------------------------

  // Over whatever is below, a layer without a transport key only adds fields.
  lemma TransportlessAgrees(a: Entry, b: Entry, c: Entry)
    requires Transportless(c)
    ensures MergeEntry(MergeEntry(a, b), c) == MergeEntry(a, MergeEntry(b, c))
  {
    KeepsWithoutTransport(MergeEntry(a, b), c);
    KeepsWithoutTransport(b, c);
    assert forall k :: Drops(a, b + c, k) == Drops(a, b, k);
    assert (Survivors(a, b) + b) + c == Survivors(a, b + c) + (b + c);
  }

  // A transport key of c settles what either grouping drops for it.
  lemma SwitchAgrees(a: Entry, b: Entry, c: Entry, f: Key)
    requires f !in c && SwitchDrops(c, f)
    ensures Agree(a, b, c, f)
  {
    assert SwitchDrops(MergeEntry(b, c), f);
  }

  lemma FieldOfMerge(existing: Entry, definition: Entry, f: Key)
    ensures
      var r := MergeEntry(existing, definition);
      && (f in r <==> f in definition || (f in existing && !Drops(existing, definition, f)))
      && (f in definition ==> r[f] == definition[f])
      && (f in r && f !in definition ==> r[f] == existing[f])
  {
  }

  // bearerTokenStore goes only with a change of url.
  lemma StoreAgrees(a: Entry, b: Entry, c: Entry)
    requires !NamesTransport(c) && Url !in c
    ensures Agree(a, b, c, BearerTokenStore)
  {
    StoreDrops(a, b, c);
    FieldOfMerge(a, b, BearerTokenStore);
    FieldOfMerge(MergeEntry(a, b), c, BearerTokenStore);
    FieldOfMerge(b, c, BearerTokenStore);
    FieldOfMerge(a, MergeEntry(b, c), BearerTokenStore);
  }

  lemma StoreDrops(a: Entry, b: Entry, c: Entry)
    requires !NamesTransport(c) && Url !in c
    ensures Drops(a, MergeEntry(b, c), BearerTokenStore) == Drops(a, b, BearerTokenStore)
    ensures forall e :: !Drops(e, c, BearerTokenStore)
  {
    KeepsWithoutTransport(b, c);
  }

  lemma SettledAgrees(a: Entry, b: Entry, c: Entry, f: Key)
    requires Settles(c, f)
    ensures Agree(a, b, c, f)
  {
    if f in c {
      HeldAgrees(a, b, c, f);
    } else if !Droppable(f) {
      UndroppableAgrees(a, b, c, f);
    } else if f == BearerTokenStore {
      StoreAgrees(a, b, c);
    } else if Transportless(c) {
      TransportlessAgrees(a, b, c);
    } else {
      SwitchAgrees(a, b, c, f);
    }
  }

  lemma HeldAgrees(a: Entry, b: Entry, c: Entry, f: Key)
    requires f in c
    ensures Agree(a, b, c, f)
  {
  }

  lemma UndroppableAgrees(a: Entry, b: Entry, c: Entry, f: Key)
    requires !Droppable(f)
    ensures Agree(a, b, c, f)
  {
    assert forall e, d :: !Drops(e, d, f);
  }

  // --- Where they do not ---------------------------------------------------

  function Only(f: Key): Entry {
    map[f := Null]
  }

  function Transport(t: Key): Entry {
    map[t := Str("")]
  }

  // The middle layer drops f from the lower one, unless c is merged over it first.
  lemma LostWhenFolded(c: Entry, f: Key, t: Key)
    requires f !in c && f != t && Drops(Only(f), Transport(t), f)
    requires !Drops(Only(f), MergeEntry(Transport(t), c), f)
    ensures !Agree(Only(f), Transport(t), c, f)
  {
    FieldOfMerge(Only(f), Transport(t), f);
    FieldOfMerge(MergeEntry(Only(f), Transport(t)), c, f);
    FieldOfMerge(Only(f), MergeEntry(Transport(t), c), f);
  }

  // The middle layer names two transports, and c takes away the one that keeps f.
  lemma LostWhenGrouped(c: Entry, f: Key, s: Key, t: Key)
    requires
      var b := Transport(s) + Transport(t);
      f !in c && f != s && f != t && !NamesTransport(c) && !Drops(Only(f), b, f) && Drops(Only(f), MergeEntry(b, c), f)
    ensures !Agree(Only(f), Transport(s) + Transport(t), c, f)
  {
    var b := Transport(s) + Transport(t);
    assert !Drops(MergeEntry(Only(f), b), c, f);
    FieldOfMerge(Only(f), b, f);
    FieldOfMerge(MergeEntry(Only(f), b), c, f);
    FieldOfMerge(b, c, f);
    FieldOfMerge(Only(f), MergeEntry(b, c), f);
  }

  // c names a url itself: grouped, a url-bound field of the middle layer meets a
  // change of url; folded, the lower layer has that url already.
  lemma LostUnderUrl(c: Entry, f: Key)
    requires Names(c, Url) && f !in c && (UrlBoundField(f) || f == OAuth) && !SwitchDrops(c, f)
    ensures !Agree(map[Url := c[Url]], Only(f), c, f)
  {
    var a: Entry := map[Url := c[Url]];
    KeepsWithoutTransport(a, Only(f));
    assert !Drops(a + Only(f), c, f);
    assert f in MergeEntry(MergeEntry(a, Only(f)), c);
    assert f !in MergeEntry(Only(f), c);
    assert f !in MergeEntry(a, MergeEntry(Only(f), c));
  }

  // Some two lower layers, for a c that names a transport.
  lemma NamingDisagrees(c: Entry, f: Key) returns (a: Entry, b: Entry)
    requires NamesTransport(c) && !Settles(c, f)
    ensures !Agree(a, b, c, f)
  {
    if Names(c, Url) && (UrlBoundField(f) || f == OAuth) {
      a, b := map[Url := c[Url]], Only(f);
      LostUnderUrl(c, f);
    } else {
      var t := if Names(c, Url) && HttpField(f) then Command else Url;
      a, b := Only(f), Transport(t);
      LostWhenFolded(c, f, t);
    }
  }

  // And for one that holds a transport key, but no string under any: what b says
  // under that key is erased before or after it took its effect.
  lemma ErasingDisagrees(c: Entry, f: Key) returns (a: Entry, b: Entry)
    requires !NamesTransport(c) && !Settles(c, f)
    ensures !Agree(a, b, c, f)
  {
    var t := ErasedTransport(c, f);
    if t.Some? {
      a, b := Only(f), Transport(t.value);
      ErasedIsLost(c, f, t.value);
    } else {
      b := ErasedBesidesUrl(c, f);
      a := Only(f);
    }
  }

  // A transport key held by c for which a layer naming it drops f.
  function ErasedTransport(c: Entry, f: Key): Option<Key> {
    if Socket in c && SwitchDrops(Transport(Socket), f) then Some(Socket)
    else if Command in c && SwitchDrops(Transport(Command), f) then Some(Command)
    else if Url in c && Drops(Only(f), Transport(Url), f) then Some(Url)
    else None
  }

  lemma ErasedIsLost(c: Entry, f: Key, t: Key)
    requires f !in c && !NamesTransport(c) && t in c && Drops(Only(f), Transport(t), f)
    ensures !Agree(Only(f), Transport(t), c, f)
  {
    KeepsWithoutTransport(Transport(t), c);
    assert !NamesTransport(Transport(t) + c);
    LostWhenFolded(c, f, t);
  }

  lemma ErasedBesidesUrl(c: Entry, f: Key) returns (b: Entry)
    requires !NamesTransport(c) && !Settles(c, f) && ErasedTransport(c, f).None?
    ensures !Agree(Only(f), b, c, f)
  {
    var s := if Url in c then Socket else Command;
    b := Transport(Url) + Transport(s);
    KeepsWithoutTransport(b, c);
    if Url in c {
      assert f == Auth || f == HttpTransport;
    } else {
      assert StdioField(f);
    }
    LostWhenGrouped(c, f, Url, s);
  }

  // --- Exactly -------------------------------------------------------------

  // Layer by layer and grouped, any two layers below c end with the same field f,
  // if and only if c settles f.
  lemma RegroupingExactly(c: Entry, f: Key)
    ensures (forall a, b :: Agree(a, b, c, f)) <==> Settles(c, f)
  {
    if Settles(c, f) {
      forall a, b ensures Agree(a, b, c, f) {
        SettledAgrees(a, b, c, f);
      }
    } else if NamesTransport(c) {
      var a, b := NamingDisagrees(c, f);
    } else {
      var a, b := ErasingDisagrees(c, f);
    }
  }

  // And with the same entry, if and only if it settles every field: a layer that
  // holds no transport key, or one that leaves nothing open.
  lemma RegroupingOfEntries(c: Entry)
    ensures (forall a, b :: MergeEntry(MergeEntry(a, b), c) == MergeEntry(a, MergeEntry(b, c)))
              <==> forall f :: Settles(c, f)
    ensures Transportless(c) ==> forall f :: Settles(c, f)
  {
    if forall f :: Settles(c, f) {
      forall a, b ensures MergeEntry(MergeEntry(a, b), c) == MergeEntry(a, MergeEntry(b, c)) {
        forall f ensures Agree(a, b, c, f) {
          RegroupingExactly(c, f);
        }
        AgreeingEntries(a, b, c);
      }
    } else {
      var f :| !Settles(c, f);
      RegroupingExactly(c, f);
    }
  }

  lemma AgreeingEntries(a: Entry, b: Entry, c: Entry)
    requires forall f :: Agree(a, b, c, f)
    ensures MergeEntry(MergeEntry(a, b), c) == MergeEntry(a, MergeEntry(b, c))
  {
    var folded, grouped := MergeEntry(MergeEntry(a, b), c), MergeEntry(a, MergeEntry(b, c));
    forall f ensures f in folded <==> f in grouped {
      assert Agree(a, b, c, f);
    }
    forall f | f in folded ensures folded[f] == grouped[f] {
      assert Agree(a, b, c, f);
    }
  }
}
