/**
  The icon and shim stores of fontawesome.js and the three lookup tables built from them.
*/
module IconIndex {
  import opened Basics

  // ---------------------------------------------------------------- objects used as dictionaries

  /** A script object: its own keys in the order they were first assigned. */
  datatype Dict<V> = Dict(keys: seq<string>, at: map<string, V>)

  function Empty<V>(): Dict<V> { Dict([], map[]) }

  /** Each key is listed once. */
  ghost predicate Proper<V>(d: Dict<V>) {
    Distinct(d.keys) && (forall k :: k in d.keys <==> k in d.at)
  }

  /** `d[k] = v` */
  function Put<V>(d: Dict<V>, k: string, v: V): (r: Dict<V>)
    ensures r.at == d.at[k := v]
    ensures Proper(d) ==> Proper(r)
  {
    Dict(if k in d.at then d.keys else d.keys + [k], d.at[k := v])
  }

  function Get<V>(d: Dict<V>, k: string): Option<V> { if k in d.at then Some(d.at[k]) else None }

  /** `_objectSpread({}, d, e)`, for the first n keys of e. */
  function SpreadTo<V>(d: Dict<V>, e: Dict<V>, n: nat): (r: Dict<V>)
    requires Proper(e) && n <= |e.keys|
    ensures Proper(d) ==> Proper(r)
  {
    if n == 0 then d
    else
      assert e.keys[n - 1] in e.keys;
      Put(SpreadTo(d, e, n - 1), e.keys[n - 1], e.at[e.keys[n - 1]])
  }

  function Spread<V>(d: Dict<V>, e: Dict<V>): (r: Dict<V>)
    requires Proper(e)
    ensures Proper(d) ==> Proper(r)
  {
    SpreadTo(d, e, |e.keys|)
  }

  lemma {:induction false} SpreadToAt<V>(d: Dict<V>, e: Dict<V>, n: nat, k: string)
    requires Proper(e) && n <= |e.keys|
    ensures Get(SpreadTo(d, e, n), k) == if k in e.keys[..n] then Get(e, k) else Get(d, k)
  {
    if n > 0 {
      SpreadToAt(d, e, n - 1, k);
      assert e.keys[..n] == e.keys[..n - 1] + [e.keys[n - 1]];
    }
  }

  /** The second object wins. */
  lemma SpreadAt<V>(d: Dict<V>, e: Dict<V>, k: string)
    requires Proper(e)
    ensures Get(Spread(d, e), k) == if k in e.at then Get(e, k) else Get(d, k)
  {
    SpreadToAt(d, e, |e.keys|, k);
    assert e.keys[..|e.keys|] == e.keys;
  }

  /** Of the first n keys of e, those that d does not have. */
  function NewKeys<V>(d: Dict<V>, e: Dict<V>, n: nat): seq<string>
    requires n <= |e.keys|
  {
    if n == 0 then []
    else NewKeys(d, e, n - 1) + (if e.keys[n - 1] in d.keys then [] else [e.keys[n - 1]])
  }

  lemma {:induction false} NewKeysIn<V>(d: Dict<V>, e: Dict<V>, n: nat)
    requires n <= |e.keys|
    ensures forall k <- NewKeys(d, e, n) :: k in e.keys[..n]
  {
    if n > 0 {
      NewKeysIn(d, e, n - 1);
      assert e.keys[..n] == e.keys[..n - 1] + [e.keys[n - 1]];
    }
  }

  /** The keys of the first object keep their places, and the new ones follow in the order of the second. */
  lemma {:induction false} SpreadToKeys<V>(d: Dict<V>, e: Dict<V>, n: nat)
    requires Proper(d) && Proper(e) && n <= |e.keys|
    ensures SpreadTo(d, e, n).keys == d.keys + NewKeys(d, e, n)
  {
    hide Proper, Put;
    if n > 0 {
      SpreadToKeys(d, e, n - 1);
      NewKeysIn(d, e, n - 1);
      KeyIsNew(e, n - 1);
      var k, s := e.keys[n - 1], SpreadTo(d, e, n - 1);
      assert k in s.keys <==> k in d.keys;
      PutKeys(s, k, e.at[k]);
    }
  }

  lemma PutKeys<V>(d: Dict<V>, k: string, v: V)
    requires Proper(d)
    ensures Put(d, k, v).keys == d.keys + (if k in d.keys then [] else [k])
  {
  }

  lemma SpreadKeys<V>(d: Dict<V>, e: Dict<V>)
    requires Proper(d) && Proper(e)
    ensures Spread(d, e).keys == d.keys + NewKeys(d, e, |e.keys|)
  {
    SpreadToKeys(d, e, |e.keys|);
  }

  // ---------------------------------------------------------------- the stores and their scans

  /** Entries 2 and 3 of an icon array; art stands for the rest. An icon without unicode has "". */
  datatype Icon = Icon(ligatures: seq<string>, unicode: string, art: int)

  type Style = Dict<Icon>

  datatype Shim = Shim(oldName: string, prefix: Option<string>, iconName: Option<string>)

  datatype Target = Target(prefix: Option<string>, iconName: Option<string>)

  ghost predicate StylesOk(styles: Dict<Style>) {
    Proper(styles) && forall p <- styles.at :: Proper(styles.at[p])
  }

  /** Among the first n icons, the name of the last one with this unicode. */
  function LastUnicode(s: Style, u: string, n: nat): Option<string>
    requires Proper(s) && n <= |s.keys|
  {
    if n == 0 then None
    else
      assert s.keys[n - 1] in s.keys;
      if s.at[s.keys[n - 1]].unicode == u != "" then Some(s.keys[n - 1]) else LastUnicode(s, u, n - 1)
  }

  /** Among the first n icons, the name of the last one that has l as a ligature or as its name. */
  function LastLigature(s: Style, l: string, n: nat): Option<string>
    requires Proper(s) && n <= |s.keys|
  {
    if n == 0 then None
    else
      assert s.keys[n - 1] in s.keys;
      if s.keys[n - 1] == l || l in s.at[s.keys[n - 1]].ligatures then Some(s.keys[n - 1])
      else LastLigature(s, l, n - 1)
  }

  /** The last of the first n shims for this name. */
  function LastShim(shims: seq<Shim>, name: string, n: nat): Option<Shim>
    requires n <= |shims|
  {
    if n == 0 then None else if shims[n - 1].oldName == name then Some(shims[n - 1]) else LastShim(shims, name, n - 1)
  }

  /** Icons of a style that is not loaded are looked for in the solid one. */
  function Redirected(s: Shim, hasRegular: bool): Target {
    Target(if s.prefix == Some("far") && !hasRegular then Some("fas") else s.prefix, s.iconName)
  }

  function Lookup<V>(m: map<string, V>, k: string): Option<V> { if k in m then Some(m[k]) else None }

  ghost predicate UnicodeTable(m: map<string, string>, s: Style)
    requires Proper(s)
  {
    forall u :: Lookup(m, u) == LastUnicode(s, u, |s.keys|)
  }

  ghost predicate LigatureTable(m: map<string, string>, s: Style)
    requires Proper(s)
  {
    forall l :: Lookup(m, l) == LastLigature(s, l, |s.keys|)
  }

  function OldNameTarget(shims: seq<Shim>, hasRegular: bool, name: string): Option<Target> {
    ShimTarget(LastShim(shims, name, |shims|), hasRegular)
  }

  function ShimTarget(s: Option<Shim>, hasRegular: bool): Option<Target> {
    if s.None? then None else Some(Redirected(s.value, hasRegular))
  }

  /** The scan finds exactly the last icon with the unicode. */
  lemma {:induction false} UnicodeScan(s: Style, u: string, n: nat, i: nat)
    requires Proper(s) && i < n <= |s.keys|
    ensures LastUnicode(s, u, n) == Some(s.keys[i]) <==>
      s.keys[i] in s.at && s.at[s.keys[i]].unicode == u != "" &&
      forall j :: i < j < n ==> s.keys[j] in s.at && s.at[s.keys[j]].unicode != u
  {
    assert s.keys[i] in s.keys && s.keys[n - 1] in s.keys;
    assert forall j :: 0 <= j < n ==> s.keys[j] in s.keys;
    if i < n - 1 {
      UnicodeScan(s, u, n - 1, i);
      if s.at[s.keys[n - 1]].unicode != u || u == "" {
        assert LastUnicode(s, u, n) == LastUnicode(s, u, n - 1);
      }
    } else {
      UnicodeName(s, u, n - 1);
    }
  }

  lemma {:induction false} UnicodeName(s: Style, u: string, n: nat)
    requires Proper(s) && n <= |s.keys|
    ensures LastUnicode(s, u, n).Some? ==> LastUnicode(s, u, n).value in s.keys[..n]
  {
    if n > 0 {
      UnicodeName(s, u, n - 1);
      assert s.keys[..n] == s.keys[..n - 1] + [s.keys[n - 1]];
    }
  }

  /** The scan finds exactly the last icon with the ligature or of that name. */
  lemma {:induction false} LigatureScan(s: Style, l: string, n: nat, i: nat)
    requires Proper(s) && i < n <= |s.keys|
    ensures LastLigature(s, l, n) == Some(s.keys[i]) <==>
      s.keys[i] in s.at && (l == s.keys[i] || l in s.at[s.keys[i]].ligatures) &&
      forall j :: i < j < n ==> s.keys[j] in s.at && l != s.keys[j] && l !in s.at[s.keys[j]].ligatures
  {
    assert s.keys[i] in s.keys && s.keys[n - 1] in s.keys;
    assert forall j :: 0 <= j < n ==> s.keys[j] in s.keys;
    if i < n - 1 {
      LigatureScan(s, l, n - 1, i);
      if s.keys[n - 1] != l && l !in s.at[s.keys[n - 1]].ligatures {
        assert LastLigature(s, l, n) == LastLigature(s, l, n - 1);
      }
    } else {
      LigatureName(s, l, n - 1);
    }
  }

  lemma {:induction false} LigatureName(s: Style, l: string, n: nat)
    requires Proper(s) && n <= |s.keys|
    ensures LastLigature(s, l, n).Some? ==> LastLigature(s, l, n).value in s.keys[..n]
  {
    if n > 0 {
      LigatureName(s, l, n - 1);
      assert s.keys[..n] == s.keys[..n - 1] + [s.keys[n - 1]];
    }
  }

  /** shims[i] is the last of the first n shims for this name. */
  ghost predicate LastFor(shims: seq<Shim>, n: nat, i: nat, name: string) {
    i < n <= |shims| && shims[i].oldName == name && forall j :: i < j < n ==> shims[j].oldName != name
  }

  lemma {:induction false} LastShimIs(shims: seq<Shim>, n: nat, i: nat, name: string)
    requires LastFor(shims, n, i, name)
    ensures LastShim(shims, name, n) == Some(shims[i])
  {
    if i < n - 1 { LastShimIs(shims, n - 1, i, name); }
  }

  /**
    An old name stands for the icon of its last shim, in that shim's style, with solid in the place of a regular
    style that is not loaded.
  */
  lemma OldNameMeans(shims: seq<Shim>, hasRegular: bool, name: string, i: nat)
    requires LastFor(shims, |shims|, i, name)
    ensures
      var t := OldNameTarget(shims, hasRegular, name);
      && t.Some? && t.value.iconName == shims[i].iconName
      && (shims[i].prefix == Some("far") && !hasRegular ==> t.value.prefix == Some("fas"))
      && (shims[i].prefix != Some("far") || hasRegular ==> t.value.prefix == shims[i].prefix)
  {
    LastShimIs(shims, |shims|, i, name);
  }

  /** Whatever name was looked up, a target in style far exists only while that style is loaded. */
  lemma {:induction false} NoDanglingRegular(shims: seq<Shim>, hasRegular: bool, name: string)
    ensures var t := OldNameTarget(shims, hasRegular, name);
      t.Some? && t.value.prefix == Some("far") ==> hasRegular
    ensures OldNameTarget(shims, hasRegular, name).None? <==> forall s <- shims :: s.oldName != name
  {
    ShimScan(shims, name, |shims|);
    assert shims[..|shims|] == shims;
  }

  lemma {:induction false} ShimScan(shims: seq<Shim>, name: string, n: nat)
    requires n <= |shims|
    ensures LastShim(shims, name, n).None? <==> forall s <- shims[..n] :: s.oldName != name
  {
    if n > 0 {
      ShimScan(shims, name, n - 1);
      assert shims[..n] == shims[..n - 1] + [shims[n - 1]];
    }
  }

  // ---------------------------------------------------------------- adding icons

  /** An entry of a pack: the icon itself under its name, or an object that names it. */
  datatype Entry = Bare(icon: Icon) | Expanded(iconName: string, icon: Icon)

  function EntryName(key: string, e: Entry): string { if e.Bare? then key else e.iconName }

  /** The reduce at the start of defineIcons, over the first n entries. */
  function Normalized(icons: Dict<Entry>, n: nat): (r: Style)
    requires Proper(icons) && n <= |icons.keys|
    ensures Proper(r)
  {
    if n == 0 then Empty()
    else
      assert icons.keys[n - 1] in icons.keys;
      var e := icons.at[icons.keys[n - 1]];
      Put(Normalized(icons, n - 1), EntryName(icons.keys[n - 1], e), e.icon)
  }

  /** Entry i of the first n names this icon, by its own key or, if it is an object, by its iconName. */
  ghost predicate Names(icons: Dict<Entry>, i: nat, name: string)
    requires i < |icons.keys|
  {
    var key := icons.keys[i];
    && key in icons.at
    && match icons.at[key]
       case Bare(_) => key == name
       case Expanded(own, _) => own == name
  }

  ghost predicate LastNaming(icons: Dict<Entry>, n: nat, i: nat, name: string) {
    i < n <= |icons.keys| && Names(icons, i, name) && forall j :: i < j < n ==> !Names(icons, j, name)
  }

  /** The last entry that names an icon gives it. */
  lemma {:induction false} NormalizedLast(icons: Dict<Entry>, n: nat, i: nat, name: string)
    requires Proper(icons) && LastNaming(icons, n, i, name)
    ensures icons.keys[i] in icons.at && Get(Normalized(icons, n), name) == Some(icons.at[icons.keys[i]].icon)
  {
    hide Proper, Names, Normalized, Get;
    NormalizedSnoc(icons, n - 1, name);
    if i < n - 1 { NormalizedLast(icons, n - 1, i, name); }
  }

  /** What no entry names is not there. */
  lemma {:induction false} NormalizedNone(icons: Dict<Entry>, n: nat, name: string)
    requires Proper(icons) && n <= |icons.keys|
    ensures Get(Normalized(icons, n), name).None? <==> forall i :: 0 <= i < n ==> !Names(icons, i, name)
  {
    hide Proper, Names, Normalized, Get;
    if n == 0 {
      NothingNormalized(icons, name);
    } else {
      NormalizedSnoc(icons, n - 1, name);
      NormalizedNone(icons, n - 1, name);
    }
  }

  lemma NothingNormalized(icons: Dict<Entry>, name: string)
    requires Proper(icons)
    ensures Get(Normalized(icons, 0), name) == None
  {
  }

  lemma NormalizedSnoc(icons: Dict<Entry>, n: nat, name: string)
    requires Proper(icons) && n < |icons.keys|
    ensures icons.keys[n] in icons.at
    ensures Get(Normalized(icons, n + 1), name) ==
      if Names(icons, n, name) then Some(icons.at[icons.keys[n]].icon) else Get(Normalized(icons, n), name)
  {
    hide Distinct, Put;
    assert icons.keys[n] in icons.keys;
    var key := icons.keys[n];
    PutGet(Normalized(icons, n), EntryName(key, icons.at[key]), icons.at[key].icon, name);
  }

  lemma PutGet<V>(d: Dict<V>, k: string, v: V, x: string)
    ensures Get(Put(d, k, v), x) == if x == k then Some(v) else Get(d, x)
  {
  }

  /** `styles[prefix] = _objectSpread({}, styles[prefix] || {}, icons)` */
  function Merged(styles: Dict<Style>, prefix: string, icons: Style): (r: Dict<Style>)
    requires StylesOk(styles) && Proper(icons)
    ensures StylesOk(r)
  {
    Put(styles, prefix, Spread(if prefix in styles.at then styles.at[prefix] else Empty(), icons))
  }

  /** What defineIcons makes of the styles: solid icons are stored under the old prefix `fa` too. */
  function Defined(styles: Dict<Style>, prefix: string, icons: Style): (r: Dict<Style>)
    requires StylesOk(styles) && Proper(icons)
    ensures StylesOk(r)
  {
    var s := Merged(styles, prefix, icons);
    if prefix == "fas" then Merged(s, "fa", icons) else s
  }

  /** `fa` is a copy of `fas`. */
  ghost predicate Aliased(styles: Dict<Style>) {
    Get(styles, "fa") == Get(styles, "fas")
  }

  lemma {:induction false} SpreadToSame<V>(d: Dict<V>, e: Dict<V>, n: nat)
    requires Proper(d) && Proper(e) && n <= |e.keys|
    requires forall k <- e.at :: Get(d, k) == Get(e, k)
    ensures SpreadTo(d, e, n) == d
  {
    if n > 0 {
      var k := e.keys[n - 1];
      assert k in e.keys && k in e.at && k in d.keys by { assert Get(d, k) == Get(e, k); }
      SpreadToSame(d, e, n - 1);
      PutSame(d, k, e.at[k]);
    }
  }

  lemma PutSame<V>(d: Dict<V>, k: string, v: V)
    requires k in d.keys && Get(d, k) == Some(v)
    ensures Put(d, k, v) == d
  {
    assert d.at[k := v] == d.at;
  }

  /** A spread changes nothing exactly when all of it is there already. */
  lemma SpreadSameIff<V>(d: Dict<V>, e: Dict<V>)
    requires Proper(d) && Proper(e)
    ensures Spread(d, e) == d <==> forall k <- e.at :: Get(d, k) == Get(e, k)
  {
    if forall k <- e.at :: Get(d, k) == Get(e, k) {
      SpreadToSame(d, e, |e.keys|);
    } else {
      var k :| k in e.at && Get(d, k) != Get(e, k);
      SpreadAt(d, e, k);
    }
  }

  /** The style is there and has all these icons, as they are. */
  ghost predicate HasAll(styles: Dict<Style>, prefix: string, icons: Style) {
    prefix in styles.at && forall name <- icons.at :: IconAt(styles, prefix, name) == Some(icons.at[name])
  }

  /**
    Adding a pack to one of the two alias styles alone, as addPack does, parts them exactly when it brings
    anything new.
  */
  lemma PackPartsAliasIff(styles: Dict<Style>, prefix: string, icons: Style)
    requires StylesOk(styles) && Proper(icons) && Aliased(styles)
    ensures Aliased(Merged(styles, prefix, icons)) <==>
      (prefix == "fa" || prefix == "fas" ==> HasAll(styles, prefix, icons))
  {
    var d := if prefix in styles.at then styles.at[prefix] else Empty();
    SpreadSameIff(d, icons);
    assert prefix in styles.at ==>
      (HasAll(styles, prefix, icons) <==> forall k <- icons.at :: Get(d, k) == Get(icons, k));
  }

  /** defineIcons keeps the aliases equal, unless it brings something new for `fa` itself. */
  lemma AliasKeptIff(styles: Dict<Style>, prefix: string, icons: Style)
    requires StylesOk(styles) && Proper(icons) && Aliased(styles)
    ensures Aliased(Defined(styles, prefix, icons)) <==> (prefix == "fa" ==> HasAll(styles, prefix, icons))
  {
    PackPartsAliasIff(styles, prefix, icons);
  }

  lemma {:induction false} AliasKeptByAll(styles: Dict<Style>, additions: Dict<Style>, n: nat)
    requires StylesOk(styles) && StylesOk(additions) && n <= |additions.keys| && Aliased(styles)
    requires "fa" !in additions.at
    ensures Aliased(AllDefined(styles, additions, n))
  {
    hide Defined, Merged, Aliased;
    if n > 0 {
      AliasKeptByAll(styles, additions, n - 1);
      assert additions.keys[n - 1] in additions.keys;
      AliasKeptIff(AllDefined(styles, additions, n - 1), additions.keys[n - 1], additions.at[additions.keys[n - 1]]);
    }
  }

  /** Defining icons keeps the others, replaces those of the same name, and touches no other style. */
  lemma DefinedAt(styles: Dict<Style>, prefix: string, icons: Style, p: string, name: string)
    requires StylesOk(styles) && Proper(icons)
    ensures IconAt(Defined(styles, prefix, icons), p, name) ==
      if (p == prefix || (prefix == "fas" && p == "fa")) && name in icons.at then Some(icons.at[name])
      else IconAt(styles, p, name)
  {
    hide Spread;
    var s := Merged(styles, prefix, icons);
    SpreadAt(if prefix in styles.at then styles.at[prefix] else Empty(), icons, name);
    SpreadAt(if "fa" in s.at then s.at["fa"] else Empty(), icons, name);
  }

  function IconAt(styles: Dict<Style>, prefix: string, name: string): Option<Icon> {
    if prefix in styles.at then Get(styles.at[prefix], name) else None
  }

  datatype Definition = Definition(prefix: string, iconName: string, icon: Icon)

  /** _pullDefinitions for one definition. */
  function Pulled(additions: Dict<Style>, d: Definition): (r: Dict<Style>)
    requires StylesOk(additions)
    ensures StylesOk(r)
  {
    Put(additions, d.prefix,
        Put(if d.prefix in additions.at then additions.at[d.prefix] else Empty(), d.iconName, d.icon))
  }

  function AllPulled(ds: seq<Definition>): (r: Dict<Style>)
    ensures StylesOk(r)
  {
    if ds == [] then Empty() else Pulled(AllPulled(ds[..|ds| - 1]), ds[|ds| - 1])
  }

  lemma PulledAt(additions: Dict<Style>, d: Definition, p: string, name: string)
    requires StylesOk(additions)
    ensures IconAt(Pulled(additions, d), p, name) ==
      if d.prefix == p && d.iconName == name then Some(d.icon) else IconAt(additions, p, name)
  {
  }

  /** ds[i] defines the icon, and nothing after it does. */
  ghost predicate LastDefined(ds: seq<Definition>, i: nat, p: string, name: string, icon: Icon) {
    && i < |ds| && ds[i] == Definition(p, name, icon)
    && forall j :: i < j < |ds| ==> ds[j].prefix != p || ds[j].iconName != name
  }

  /** The last definition of a name wins. */
  lemma {:induction false} PulledLast(ds: seq<Definition>, p: string, name: string)
    ensures IconAt(AllPulled(ds), p, name) == None ==> forall d <- ds :: d.prefix != p || d.iconName != name
    ensures IconAt(AllPulled(ds), p, name).Some? ==>
      exists i: nat :: LastDefined(ds, i, p, name, IconAt(AllPulled(ds), p, name).value)
  {
    hide Pulled, IconAt;
    if ds != [] {
      var rest, d := ds[..|ds| - 1], ds[|ds| - 1];
      PulledLast(rest, p, name);
      PulledAt(AllPulled(rest), d, p, name);
      assert ds == rest + [d];
      assert forall x <- ds :: x in rest || x == d;
      var found := IconAt(AllPulled(ds), p, name);
      if d.prefix == p && d.iconName == name {
        assert d == Definition(p, name, d.icon) && found == Some(d.icon);
        assert LastDefined(ds, |ds| - 1, p, name, d.icon);
      } else if found.Some? {
        var i: nat :| LastDefined(rest, i, p, name, found.value);
        assert LastDefined(ds, i, p, name, found.value);
      }
    } else {
      NothingAt(p, name);
    }
  }

  lemma NonePulled(ds: seq<Definition>)
    ensures AllPulled(ds[..0]) == Empty()
  {
    assert ds[..0] == [];
  }

  lemma OneMorePulled(ds: seq<Definition>, i: nat)
    requires i < |ds|
    ensures AllPulled(ds[..i + 1]) == Pulled(AllPulled(ds[..i]), ds[i])
  {
    hide Pulled;
    assert ds[..i + 1][..i] == ds[..i];
  }

  lemma NothingAt(p: string, name: string)
    ensures IconAt(AllPulled([]), p, name) == None
  {
  }

  /** defineIcons for the first n prefixes of the additions. */
  function AllDefined(styles: Dict<Style>, additions: Dict<Style>, n: nat): (r: Dict<Style>)
    requires StylesOk(styles) && StylesOk(additions) && n <= |additions.keys|
    ensures StylesOk(r)
  {
    if n == 0 then styles
    else
      assert additions.keys[n - 1] in additions.keys;
      Defined(AllDefined(styles, additions, n - 1), additions.keys[n - 1], additions.at[additions.keys[n - 1]])
  }

  /** The definitions the library itself keeps. */
  function AllMerged(definitions: Dict<Style>, additions: Dict<Style>, n: nat): (r: Dict<Style>)
    requires StylesOk(definitions) && StylesOk(additions) && n <= |additions.keys|
    ensures StylesOk(r)
  {
    if n == 0 then definitions
    else
      assert additions.keys[n - 1] in additions.keys;
      Merged(AllMerged(definitions, additions, n - 1), additions.keys[n - 1], additions.at[additions.keys[n - 1]])
  }

  lemma {:induction false} AllDefinedAt(styles: Dict<Style>, additions: Dict<Style>, n: nat, p: string, name: string)
    requires StylesOk(styles) && StylesOk(additions) && n <= |additions.keys| && p != "fa"
    ensures IconAt(AllDefined(styles, additions, n), p, name) ==
      if p in additions.keys[..n] && IconAt(additions, p, name).Some? then IconAt(additions, p, name)
      else IconAt(styles, p, name)
  {
    hide Defined;
    if n > 0 {
      AllDefinedAt(styles, additions, n - 1, p, name);
      KeyIsNew(additions, n - 1);
      var key := additions.keys[n - 1];
      DefinedAt(AllDefined(styles, additions, n - 1), key, additions.at[key], p, name);
    }
  }

  /** After Library.add, every icon is as last defined in its arguments, or else as it was. */
  lemma AddedAt(styles: Dict<Style>, ds: seq<Definition>, p: string, name: string)
    requires StylesOk(styles) && p != "fa"
    ensures var additions := AllPulled(ds);
      var found := IconAt(AllDefined(styles, additions, |additions.keys|), p, name);
      || (found.Some? && exists i: nat :: LastDefined(ds, i, p, name, found.value))
      || (found == IconAt(styles, p, name) && forall d <- ds :: d.prefix != p || d.iconName != name)
  {
    var additions := AllPulled(ds);
    AllDefinedAt(styles, additions, |additions.keys|, p, name);
    assert additions.keys[..|additions.keys|] == additions.keys;
    PulledLast(ds, p, name);
  }

  lemma {:induction false} AllMergedAt(definitions: Dict<Style>, additions: Dict<Style>, n: nat, p: string,
                                       name: string)
    requires StylesOk(definitions) && StylesOk(additions) && n <= |additions.keys|
    ensures IconAt(AllMerged(definitions, additions, n), p, name) ==
      if p in additions.keys[..n] && IconAt(additions, p, name).Some? then IconAt(additions, p, name)
      else IconAt(definitions, p, name)
  {
    hide Merged;
    if n > 0 {
      AllMergedAt(definitions, additions, n - 1, p, name);
      KeyIsNew(additions, n - 1);
      var key := additions.keys[n - 1];
      MergedAt(AllMerged(definitions, additions, n - 1), key, additions.at[key], p, name);
    }
  }

  lemma MergedAt(styles: Dict<Style>, prefix: string, icons: Style, p: string, name: string)
    requires StylesOk(styles) && Proper(icons)
    ensures IconAt(Merged(styles, prefix, icons), p, name) ==
      if p == prefix && name in icons.at then Some(icons.at[name]) else IconAt(styles, p, name)
  {
    hide Spread;
    SpreadAt(if prefix in styles.at then styles.at[prefix] else Empty(), icons, name);
  }

  /** The library's own definitions, `fa` among them, are the last ones given, or else those it had. */
  lemma RememberedAt(definitions: Dict<Style>, ds: seq<Definition>, p: string, name: string)
    requires StylesOk(definitions)
    ensures var additions := AllPulled(ds);
      var found := IconAt(AllMerged(definitions, additions, |additions.keys|), p, name);
      || (found.Some? && exists i: nat :: LastDefined(ds, i, p, name, found.value))
      || (found == IconAt(definitions, p, name) && forall d <- ds :: d.prefix != p || d.iconName != name)
  {
    hide AllMerged;
    var additions := AllPulled(ds);
    AllMergedAt(definitions, additions, |additions.keys|, p, name);
    assert additions.keys[..|additions.keys|] == additions.keys;
    PulledLast(ds, p, name);
  }

  /** Among the first n prefixes added, the icon that the last of `fa` and `fas` to have the name gives it. */
  function AliasFrom(additions: Dict<Style>, n: nat, name: string): Option<Icon>
    requires StylesOk(additions) && n <= |additions.keys|
  {
    if n == 0 then None
    else
      var key := additions.keys[n - 1];
      if (key == "fa" || key == "fas") && IconAt(additions, key, name).Some? then IconAt(additions, key, name)
      else AliasFrom(additions, n - 1, name)
  }

  lemma {:induction false} AllDefinedAlias(styles: Dict<Style>, additions: Dict<Style>, n: nat, name: string)
    requires StylesOk(styles) && StylesOk(additions) && n <= |additions.keys|
    ensures IconAt(AllDefined(styles, additions, n), "fa", name) ==
      if AliasFrom(additions, n, name).Some? then AliasFrom(additions, n, name) else IconAt(styles, "fa", name)
  {
    hide Defined;
    if n > 0 {
      AllDefinedAlias(styles, additions, n - 1, name);
      KeyIsNew(additions, n - 1);
      var key := additions.keys[n - 1];
      DefinedAt(AllDefined(styles, additions, n - 1), key, additions.at[key], "fa", name);
    }
  }

  /** After Library.add an icon of `fa` is the one of the two styles added last that has the name, or as it was. */
  lemma AddedAliasAt(styles: Dict<Style>, ds: seq<Definition>, name: string)
    requires StylesOk(styles)
    ensures var additions := AllPulled(ds); var n := |additions.keys|;
      IconAt(AllDefined(styles, additions, n), "fa", name) ==
        if AliasFrom(additions, n, name).Some? then AliasFrom(additions, n, name) else IconAt(styles, "fa", name)
  {
    AllDefinedAlias(styles, AllPulled(ds), |AllPulled(ds).keys|, name);
  }

  /** The styles are added in the order they are first named, so the last definition need not win for `fa`. */
  lemma AliasOrderMatters(a: Icon, b: Icon)
    ensures var ds := [Definition("fas", "y", a), Definition("fa", "x", a), Definition("fas", "x", b)];
      var additions := AllPulled(ds);
      && additions.keys == ["fas", "fa"]
      && IconAt(AllDefined(Empty(), additions, 2), "fa", "x") == Some(a)
      && IconAt(AllDefined(Empty(), additions, 2), "fas", "x") == Some(b)
  {
    hide Pulled, IconAt, AllDefined;
    var d, e, f := Definition("fas", "y", a), Definition("fa", "x", a), Definition("fas", "x", b);
    assert [d, e, f][..2] == [d, e] && [d, e][..1] == [d] && [d][..0] == [];
    var p0, p1, p2 := AllPulled([]), AllPulled([d]), AllPulled([d, e]);
    var p3 := AllPulled([d, e, f]);
    PulledKeys(p0, d);
    PulledKeys(p1, e);
    PulledKeys(p2, f);
    NothingAt("fa", "x");
    PulledAt(p0, d, "fa", "x");
    PulledAt(p1, e, "fa", "x");
    PulledAt(p2, f, "fa", "x");
    PulledAt(p2, f, "fas", "x");
    TwoStyles(p3, "x", a, b);
  }

  lemma PulledKeys(additions: Dict<Style>, d: Definition)
    requires StylesOk(additions)
    ensures Pulled(additions, d).keys ==
      if d.prefix in additions.keys then additions.keys else additions.keys + [d.prefix]
  {
  }

  lemma TwoStyles(additions: Dict<Style>, name: string, a: Icon, b: Icon)
    requires StylesOk(additions) && additions.keys == ["fas", "fa"]
    requires IconAt(additions, "fa", name) == Some(a) && IconAt(additions, "fas", name) == Some(b)
    ensures IconAt(AllDefined(Empty(), additions, 2), "fa", name) == Some(a)
    ensures IconAt(AllDefined(Empty(), additions, 2), "fas", name) == Some(b)
  {
    hide AllDefined, IconAt;
    AllDefinedAlias(Empty(), additions, 2, name);
    AllDefinedAt(Empty(), additions, 2, "fas", name);
    assert additions.keys[..2] == additions.keys;
    assert additions.keys[0] == "fas" && "fas" in additions.keys;
  }

  // Which of the two alias styles is added later, in terms of the arguments of Library.add.

  /** p is named in ds, and q is not named before it. */
  ghost predicate NamedBefore(ds: seq<Definition>, p: string, q: string) {
    exists i :: 0 <= i < |ds| && ds[i].prefix == p && !Named(ds[..i], q)
  }

  ghost predicate Named(ds: seq<Definition>, p: string) { exists i :: 0 <= i < |ds| && ds[i].prefix == p }

  ghost predicate KeyBefore(keys: seq<string>, p: string, q: string) {
    exists a :: 0 <= a < |keys| && keys[a] == p && q !in keys[..a]
  }

  lemma NamedSnoc(ds: seq<Definition>, d: Definition, p: string)
    ensures Named(ds + [d], p) <==> Named(ds, p) || d.prefix == p
  {
    var more := ds + [d];
    if Named(ds, p) {
      var i :| 0 <= i < |ds| && ds[i].prefix == p;
      assert more[i].prefix == p;
    }
    if d.prefix == p { assert more[|ds|].prefix == p; }
    if i :| 0 <= i < |more| && more[i].prefix == p { assert i < |ds| ==> ds[i].prefix == p; }
  }

  lemma NamedBeforeSnoc(ds: seq<Definition>, d: Definition, p: string, q: string)
    ensures NamedBefore(ds + [d], p, q) <==> NamedBefore(ds, p, q) || (d.prefix == p && !Named(ds, q))
  {
    hide Named;
    var more := ds + [d];
    assert more[..|ds|] == ds;
    if NamedBefore(ds, p, q) {
      var i :| 0 <= i < |ds| && ds[i].prefix == p && !Named(ds[..i], q);
      assert more[i].prefix == p && more[..i] == ds[..i];
    }
    if d.prefix == p && !Named(ds, q) { assert more[|ds|].prefix == p; }
    if i :| 0 <= i < |more| && more[i].prefix == p && !Named(more[..i], q) {
      if i < |ds| { assert ds[i].prefix == p && more[..i] == ds[..i]; }
    }
  }

  lemma KeyBeforeSnoc(keys: seq<string>, x: string, p: string, q: string)
    ensures KeyBefore(keys + [x], p, q) <==> KeyBefore(keys, p, q) || (x == p && q !in keys)
  {
    var more := keys + [x];
    assert more[..|keys|] == keys;
    if KeyBefore(keys, p, q) {
      var a :| 0 <= a < |keys| && keys[a] == p && q !in keys[..a];
      assert more[a] == p && more[..a] == keys[..a];
    }
    if x == p && q !in keys { assert more[|keys|] == p; }
    if a :| 0 <= a < |more| && more[a] == p && q !in more[..a] {
      if a < |keys| { assert keys[a] == p && more[..a] == keys[..a]; }
    }
  }

  /** If only p occurs, it occurs before q. */
  lemma KeyBeforeAbsent(keys: seq<string>, p: string, q: string)
    requires q !in keys
    ensures KeyBefore(keys, p, q) <==> p in keys
  {
    if p in keys {
      var a :| 0 <= a < |keys| && keys[a] == p;
      assert q !in keys[..a];
    }
  }

  /** The styles are added in the order in which the arguments first name them. */
  lemma {:induction false} KeysInOrder(ds: seq<Definition>, p: string, q: string)
    requires p != q
    ensures q in AllPulled(ds).keys <==> Named(ds, q)
    ensures KeyBefore(AllPulled(ds).keys, p, q) <==> NamedBefore(ds, p, q)
  {
    hide Named, NamedBefore, KeyBefore, Pulled;
    if ds == [] {
      assert ds == [];
      NothingNamed(p, q);
    } else {
      var rest, d := ds[..|ds| - 1], ds[|ds| - 1];
      assert ds == rest + [d];
      KeysInOrder(rest, p, q);
      PulledKeys(AllPulled(rest), d);
      NamedSnoc(rest, d, q);
      NamedBeforeSnoc(rest, d, p, q);
      KeyBeforeSnoc(AllPulled(rest).keys, d.prefix, p, q);
      if q !in AllPulled(rest).keys { KeyBeforeAbsent(AllPulled(rest).keys, p, q); }
    }
  }

  lemma NothingNamed(p: string, q: string)
    ensures !Named([], q) && !NamedBefore([], p, q) && !KeyBefore(AllPulled([]).keys, p, q)
    ensures q !in AllPulled([]).keys
  {
  }

  ghost predicate TheAliases(p: string, q: string) { (p == "fa" && q == "fas") || (p == "fas" && q == "fa") }

  function AmongFirst(additions: Dict<Style>, n: nat, p: string, name: string): Option<Icon>
    requires n <= |additions.keys|
  {
    if p in additions.keys[..n] then IconAt(additions, p, name) else None
  }

  /** The alias gets its icon from the later of the two styles that has the name. */
  lemma {:induction false} AliasFromLater(additions: Dict<Style>, n: nat, p: string, q: string, name: string)
    requires StylesOk(additions) && n <= |additions.keys| && TheAliases(p, q)
    ensures AliasFrom(additions, n, name) ==
      var ofP, ofQ := AmongFirst(additions, n, p, name), AmongFirst(additions, n, q, name);
      if KeyBefore(additions.keys[..n], p, q) && ofQ.Some? then ofQ else if ofP.Some? then ofP else ofQ
  {
    hide KeyBefore, IconAt, Proper;
    if n > 0 {
      var keys, key := additions.keys[..n - 1], additions.keys[n - 1];
      AliasFromLater(additions, n - 1, p, q, name);
      KeyIsNew(additions, n - 1);
      LaterKey(keys, key, p, q);
      var ofP, ofQ := AmongFirst(additions, n - 1, p, name), AmongFirst(additions, n - 1, q, name);
      if key == p {
        assert AmongFirst(additions, n, q, name) == ofQ;
      } else if key == q {
        assert AmongFirst(additions, n, p, name) == ofP;
      } else {
        assert AmongFirst(additions, n, q, name) == ofQ && AmongFirst(additions, n, p, name) == ofP;
      }
    }
  }

  lemma LaterKey(keys: seq<string>, key: string, p: string, q: string)
    requires key !in keys && p != q
    ensures KeyBefore(keys + [key], p, q) ==
      if key == p then q !in keys else if key == q then p in keys else KeyBefore(keys, p, q)
    ensures q !in keys ==> (KeyBefore(keys, p, q) <==> p in keys)
  {
    hide KeyBefore;
    KeyBeforeSnoc(keys, key, p, q);
    if q !in keys { KeyBeforeAbsent(keys, p, q); }
    if key == p && KeyBefore(keys, p, q) { KeyOccurs(keys, p, q); }
  }

  lemma KeyOccurs(keys: seq<string>, p: string, q: string)
    requires KeyBefore(keys, p, q)
    ensures p in keys
  {
  }

  /** ds[i] is the last to define the name in one of the two alias styles. */
  ghost predicate LastForAlias(ds: seq<Definition>, i: nat, p: string, q: string, name: string) {
    && i < |ds| && ds[i].prefix == p && ds[i].iconName == name && TheAliases(p, q)
    && forall j :: i < j < |ds| && ds[j].iconName == name ==> ds[j].prefix != p && ds[j].prefix != q
  }

  /** Although ds[i] comes later, the other style q, added after p, has another icon under the name. */
  ghost predicate Displaced(ds: seq<Definition>, i: nat, p: string, q: string, name: string)
    requires i < |ds|
  {
    NamedBefore(ds, p, q) && exists j: nat, icon :: LastDefined(ds, j, q, name, icon) && icon != ds[i].icon
  }

  lemma PulledIs(ds: seq<Definition>, i: nat, p: string, name: string, icon: Icon)
    requires LastDefined(ds, i, p, name, icon)
    ensures IconAt(AllPulled(ds), p, name) == Some(icon)
  {
    hide IconAt;
    PulledLast(ds, p, name);
    assert ds[i] in ds;
    var j: nat :| LastDefined(ds, j, p, name, IconAt(AllPulled(ds), p, name).value);
    assert i == j;
  }

  /**
    After Library.add the last definition of a name in `fa` or `fas` is what `fa` has, unless the arguments name
    its style before the other one and the other one's last icon of that name differs: exactly then it is not.
  */
  lemma AliasLastWinsIff(styles: Dict<Style>, ds: seq<Definition>, i: nat, p: string, q: string, name: string)
    requires StylesOk(styles) && LastForAlias(ds, i, p, q, name)
    ensures IconAt(AllDefined(styles, AllPulled(ds), |AllPulled(ds).keys|), "fa", name) == Some(ds[i].icon) <==>
      !Displaced(ds, i, p, q, name)
  {
    hide IconAt, AllDefined, NamedBefore, KeyBefore, Named, LastDefined;
    var additions := AllPulled(ds);
    var n := |additions.keys|;
    assert additions.keys[..n] == additions.keys;
    AddedAliasAt(styles, ds, name);
    AliasFromLater(additions, n, p, q, name);
    KeysInOrder(ds, p, q);
    LastIsPulled(ds, i, p, q, name);
    NotAdded(additions, p, name);
    NotAdded(additions, q, name);
    PulledLast(ds, q, name);
    if j: nat, icon :| LastDefined(ds, j, q, name, icon) && icon != ds[i].icon { PulledIs(ds, j, q, name, icon); }
  }

  lemma LastIsPulled(ds: seq<Definition>, i: nat, p: string, q: string, name: string)
    requires LastForAlias(ds, i, p, q, name)
    ensures IconAt(AllPulled(ds), p, name) == Some(ds[i].icon)
  {
    assert LastDefined(ds, i, p, name, ds[i].icon);
    PulledIs(ds, i, p, name, ds[i].icon);
  }

  lemma NotAdded(additions: Dict<Style>, p: string, name: string)
    requires StylesOk(additions)
    ensures p !in additions.keys ==> IconAt(additions, p, name) == None
  {
  }

  lemma PutNew<V>(d: Dict<V>, k: string, v: V)
    requires Get(d, k) == None
    ensures Put(d, k, v).keys == d.keys + [k]
    ensures forall x :: Get(Put(d, k, v), x) == if x == k then Some(v) else Get(d, x)
  {
  }

  lemma KeyIsNew<V>(d: Dict<V>, n: nat)
    requires Proper(d) && n < |d.keys|
    ensures d.keys[n] in d.at && d.keys[n] !in d.keys[..n]
    ensures d.keys[..n + 1] == d.keys[..n] + [d.keys[n]]
  {
    assert d.keys[n] in d.keys;
  }

  /** Entries without an inner icon are taken over as they are. */
  lemma {:induction false} NormalizedBare(icons: Dict<Entry>, style: Style, n: nat)
    requires Proper(icons) && Proper(style) && icons.keys == style.keys && n <= |icons.keys|
    requires forall k :: k in style.at ==> k in icons.at && icons.at[k] == Bare(style.at[k])
    ensures Normalized(icons, n).keys == style.keys[..n]
    ensures forall k :: Get(Normalized(icons, n), k) == if k in style.keys[..n] then Get(style, k) else None
  {
    hide Proper, Put;
    if n > 0 {
      NormalizedBare(icons, style, n - 1);
      KeyIsNew(style, n - 1);
      var k := icons.keys[n - 1];
      assert icons.at[k] == Bare(style.at[k]);
      PutNew(Normalized(icons, n - 1), k, style.at[k]);
    }
  }

  lemma NormalizedIsStyle(icons: Dict<Entry>, style: Style)
    requires Proper(icons) && Proper(style) && icons.keys == style.keys
    requires forall k :: k in style.at ==> k in icons.at && icons.at[k] == Bare(style.at[k])
    ensures Normalized(icons, |icons.keys|) == style
  {
    NormalizedBare(icons, style, |icons.keys|);
    var r := Normalized(icons, |icons.keys|);
    assert style.keys[..|icons.keys|] == style.keys;
    forall k ensures k in r.at <==> k in style.at { assert Get(r, k) == Get(style, k); }
    forall k | k in r.at ensures r.at[k] == style.at[k] { assert Get(r, k) == Get(style, k); }
    assert r.at == style.at;
  }

  // ---------------------------------------------------------------- the module's state

  /** The tables of the first i styles. */
  ghost predicate TablesTo(us: map<string, map<string, string>>, ls: map<string, map<string, string>>,
                           styles: Dict<Style>, i: nat)
    requires StylesOk(styles) && i <= |styles.keys|
  {
    forall p ::
      && (p in us <==> p in styles.keys[..i]) && (p in ls <==> p in styles.keys[..i])
      && (p in us && p in ls ==> TablesAt(us[p], ls[p], styles, p))
  }

  ghost predicate TablesAt(u: map<string, string>, l: map<string, string>, styles: Dict<Style>, p: string)
    requires StylesOk(styles)
  {
    p in styles.at && UnicodeTable(u, styles.at[p]) && LigatureTable(l, styles.at[p])
  }

  lemma NoTables(styles: Dict<Style>)
    requires StylesOk(styles)
    ensures TablesTo(map[], map[], styles, 0)
  {
  }

  lemma OneMoreTable(us: map<string, map<string, string>>, ls: map<string, map<string, string>>,
                     styles: Dict<Style>, i: nat, u: map<string, string>, l: map<string, string>)
    requires StylesOk(styles) && i < |styles.keys| && TablesTo(us, ls, styles, i)
    requires TablesAt(u, l, styles, styles.keys[i])
    ensures TablesTo(us[styles.keys[i] := u], ls[styles.keys[i] := l], styles, i + 1)
  {
    hide TablesAt;
    assert styles.keys[..i + 1] == styles.keys[..i] + [styles.keys[i]];
  }

  lemma AllTables(us: map<string, map<string, string>>, ls: map<string, map<string, string>>, styles: Dict<Style>)
    requires StylesOk(styles) && TablesTo(us, ls, styles, |styles.keys|)
    ensures us.Keys == ls.Keys == styles.at.Keys
    ensures forall p <- styles.at :: UnicodeTable(us[p], styles.at[p]) && LigatureTable(ls[p], styles.at[p])
  {
    hide UnicodeTable, LigatureTable;
    assert styles.keys[..|styles.keys|] == styles.keys;
    forall p <- styles.at ensures p in us && p in ls && TablesAt(us[p], ls[p], styles, p) { }
  }

  class Icons {
    var styles: Dict<Style>
    var shims: seq<Shim>
    var hooked: bool                     // bootstrap has installed its hooks
    var definitions: Dict<Style>         // Library.definitions
    var byUnicode: map<string, map<string, string>>
    var byLigature: map<string, map<string, string>>
    var byOldName: map<string, Target>

    constructor (styles: Dict<Style>, shims: seq<Shim>)
      requires StylesOk(styles)
      ensures this.styles == styles && this.shims == shims && !hooked && definitions == Empty()
      ensures Valid() && Coherent()
    {
      this.styles, this.shims, hooked, definitions := styles, shims, false, Empty();
      new;
      Build();
    }

    ghost predicate Valid()
      reads this
    {
      StylesOk(styles) && StylesOk(definitions)
    }

    /** The tables say what a scan of the stores says. */
    ghost predicate Coherent()
      reads this
      requires Valid()
    {
      && byUnicode.Keys == byLigature.Keys == styles.at.Keys
      && (forall p <- styles.at ::
            UnicodeTable(byUnicode[p], styles.at[p]) && LigatureTable(byLigature[p], styles.at[p]))
      && (forall name :: Lookup(byOldName, name) == OldNameTarget(shims, "far" in styles.at, name))
    }

    method UnicodesOf(style: Style) returns (acc: map<string, string>)
      requires Proper(style)
      ensures UnicodeTable(acc, style)
    {
      acc := map[];
      for i := 0 to |style.keys|
        invariant forall u :: Lookup(acc, u) == LastUnicode(style, u, i)
      {
        var iconName := style.keys[i];
        assert iconName in style.keys;
        var icon := style.at[iconName];
        if icon.unicode != "" {
          acc := acc[icon.unicode := iconName];
        }
      }
    }

    method LigaturesOf(style: Style) returns (acc: map<string, string>)
      requires Proper(style)
      ensures LigatureTable(acc, style)
    {
      acc := map[];
      for i := 0 to |style.keys|
        invariant forall l :: Lookup(acc, l) == LastLigature(style, l, i)
      {
        var iconName := style.keys[i];
        assert iconName in style.keys;
        var ligatures := style.at[iconName].ligatures;
        acc := acc[iconName := iconName];
        for j := 0 to |ligatures|
          invariant LigaturesTaken(acc, style, i, ligatures[..j])
        {
          ghost var was := acc;
          acc := acc[ligatures[j] := iconName];
          OneMoreTaken(was, style, i, ligatures[..j], ligatures[j]);
          assert ligatures[..j + 1] == ligatures[..j] + [ligatures[j]];
        }
        assert ligatures[..|ligatures|] == ligatures;
      }
    }

    /** Before icon i the scan's answers, and for icon i its name and these of its ligatures. */
    static ghost predicate LigaturesTaken(acc: map<string, string>, style: Style, i: nat, taken: seq<string>)
      requires Proper(style) && i < |style.keys|
    {
      forall l :: Lookup(acc, l) ==
        if l == style.keys[i] || l in taken then Some(style.keys[i]) else LastLigature(style, l, i)
    }

    static lemma OneMoreTaken(acc: map<string, string>, style: Style, i: nat, taken: seq<string>, ligature: string)
      requires Proper(style) && i < |style.keys| && LigaturesTaken(acc, style, i, taken)
      ensures LigaturesTaken(acc[ligature := style.keys[i]], style, i, taken + [ligature])
    {
      hide Proper, LastLigature;
      var next, key := acc[ligature := style.keys[i]], style.keys[i];
      forall l
        ensures Lookup(next, l) ==
          if l == key || l in taken + [ligature] then Some(key) else LastLigature(style, l, i)
      {
        assert Lookup(acc, l) == if l == key || l in taken then Some(key) else LastLigature(style, l, i);
      }
    }

    method OldNames() returns (acc: map<string, Target>)
      ensures forall name :: Lookup(acc, name) == OldNameTarget(shims, "far" in styles.at, name)
    {
      var hasRegular := "far" in styles.at;
      acc := map[];
      for i := 0 to |shims|
        invariant forall name :: Lookup(acc, name) == ShimTarget(LastShim(shims, name, i), hasRegular)
      {
        var prefix := shims[i].prefix;
        if prefix == Some("far") && !hasRegular {
          prefix := Some("fas");
        }
        acc := acc[shims[i].oldName := Target(prefix, shims[i].iconName)];
      }
    }

    /** build */
    method Build()
      requires Valid()
      modifies `byUnicode, `byLigature, `byOldName
      ensures Coherent()
    {
      hide UnicodeTable, LigatureTable, OldNameTarget, TablesTo, Distinct;
      var unicodes, ligatures: map<string, map<string, string>> := map[], map[];
      NoTables(styles);
      for i := 0 to |styles.keys|
        invariant TablesTo(unicodes, ligatures, styles, i)
      {
        var prefix := styles.keys[i];
        assert prefix in styles.keys;
        var u := UnicodesOf(styles.at[prefix]);
        var l := LigaturesOf(styles.at[prefix]);
        OneMoreTable(unicodes, ligatures, styles, i, u, l);
        unicodes, ligatures := unicodes[prefix := u], ligatures[prefix := l];
      }
      AllTables(unicodes, ligatures, styles);
      byUnicode, byLigature := unicodes, ligatures;
      byOldName := OldNames();
    }

    /** hooks.addPack */
    method AddPack(prefix: string, icons: Style)
      requires Valid() && Proper(icons)
      modifies `styles, `byUnicode, `byLigature, `byOldName
      ensures Valid() && Coherent() && styles == Merged(old(styles), prefix, icons)
    {
      styles := Put(styles, prefix, Spread(if prefix in styles.at then styles.at[prefix] else Empty(), icons));
      Build();
    }

    /** hooks.addShims */
    method AddShims(more: seq<Shim>)
      requires Valid()
      modifies `shims, `byUnicode, `byLigature, `byOldName
      ensures Valid() && Coherent() && shims == old(shims) + more
    {
      shims := shims + more;
      Build();
    }

    /** bootstrap's change to namespace.hooks */
    method InstallHooks()
      modifies `hooked
      ensures hooked
    {
      hooked := true;
    }

    method Normalize(icons: Dict<Entry>) returns (normalized: Style)
      requires Proper(icons)
      ensures normalized == Normalized(icons, |icons.keys|)
    {
      normalized := Empty();
      for i := 0 to |icons.keys|
        invariant normalized == Normalized(icons, i)
      {
        var iconName := icons.keys[i];
        assert iconName in icons.keys;
        var icon := icons.at[iconName];
        if icon.Expanded? {
          normalized := Put(normalized, icon.iconName, icon.icon);
        } else {
          normalized := Put(normalized, iconName, icon.icon);
        }
      }
    }

    /** The tables are as they were. */
    twostate predicate TablesKept()
      reads this
    {
      byUnicode == old(byUnicode) && byLigature == old(byLigature) && byOldName == old(byOldName)
    }

    /** Through the hook if there is one. */
    method Store(prefix: string, icons: Style)
      requires Valid() && Proper(icons)
      modifies `styles, `byUnicode, `byLigature, `byOldName
      ensures Valid() && styles == Merged(old(styles), prefix, icons)
      ensures if hooked then Coherent() else TablesKept()
    {
      if hooked {
        AddPack(prefix, icons);
      } else {
        styles := Put(styles, prefix, Spread(if prefix in styles.at then styles.at[prefix] else Empty(), icons));
      }
    }

    /** defineIcons; without hooks it leaves the tables for someone else to build. */
    method DefineIcons(prefix: string, icons: Dict<Entry>)
      requires Valid() && Proper(icons)
      modifies `styles, `byUnicode, `byLigature, `byOldName
      ensures Valid() && styles == Defined(old(styles), prefix, Normalized(icons, |icons.keys|))
      ensures if hooked then Coherent() else TablesKept()
      decreases if prefix == "fas" then 1 else 0
    {
      hide Normalized, Merged, Coherent;
      var normalized := Normalize(icons);
      Store(prefix, normalized);
      if prefix == "fas" {
        DefineIcons("fa", icons);
      }
    }

    /** Library.add, its arguments taken apart into single definitions. */
    method Add(ds: seq<Definition>)
      requires Valid()
      modifies this
      ensures Valid() && shims == old(shims) && hooked == old(hooked)
      ensures ds != [] || old(Coherent()) ==> Coherent()
      ensures var additions := AllPulled(ds);
        && styles == AllDefined(old(styles), additions, |additions.keys|)
        && definitions == AllMerged(old(definitions), additions, |additions.keys|)
    {
      hide Defined, Merged, Coherent;
      var additions := PullDefinitions(ds);
      PulledNothing(ds);
      for i := 0 to |additions.keys|
        invariant Valid() && (i > 0 || old(Coherent()) ==> Coherent())
        invariant shims == old(shims) && hooked == old(hooked)
        invariant styles == AllDefined(old(styles), additions, i)
        invariant definitions == AllMerged(old(definitions), additions, i)
      {
        AddStyle(additions.keys[i], additions);
      }
    }

    method PullDefinitions(ds: seq<Definition>) returns (additions: Dict<Style>)
      ensures additions == AllPulled(ds)
    {
      hide AllPulled, Put;
      additions := Empty();
      NonePulled(ds);
      for i := 0 to |ds|
        invariant additions == AllPulled(ds[..i])
      {
        OneMorePulled(ds, i);
        var d := ds[i];
        var inner := if d.prefix in additions.at then additions.at[d.prefix] else Empty();
        additions := Put(additions, d.prefix, Put(inner, d.iconName, d.icon));
      }
      assert ds[..|ds|] == ds;
    }

    method Remember(key: string, style: Style)
      requires Valid() && Proper(style)
      modifies `definitions
      ensures Valid() && definitions == Merged(old(definitions), key, style)
    {
      var known := if key in definitions.at then definitions.at[key] else Empty();
      definitions := Put(definitions, key, Spread(known, style));
    }

    /** The body of the loop of Library.add. */
    method AddStyle(key: string, additions: Dict<Style>)
      requires Valid() && StylesOk(additions) && key in additions.keys
      modifies this
      ensures Valid() && Coherent() && shims == old(shims) && hooked == old(hooked)
      ensures styles == Defined(old(styles), key, additions.at[key])
      ensures definitions == Merged(old(definitions), key, additions.at[key])
    {
      hide Defined, Merged, Normalized, Coherent;
      var style := additions.at[key];
      Remember(key, style);
      var icons := Dict(style.keys, map k | k in style.at :: Bare(style.at[k]));
      NormalizedIsStyle(icons, style);
      DefineIcons(key, icons);
      Build();
    }

    /** byUnicode: None stands for undefined, Err for the TypeError of an unknown prefix. */
    method ByUnicode(prefix: string, unicode: string) returns (r: Result<Option<string>, string>)
      requires Valid() && Coherent()
      ensures r == if prefix !in styles.at then Err("TypeError")
                   else Ok(LastUnicode(styles.at[prefix], unicode, |styles.at[prefix].keys|))
    {
      if prefix !in byUnicode { return Err("TypeError"); }
      return Ok(Lookup(byUnicode[prefix], unicode));
    }

    /** byLigature */
    method ByLigature(prefix: string, ligature: string) returns (r: Result<Option<string>, string>)
      requires Valid() && Coherent()
      ensures r == if prefix !in styles.at then Err("TypeError")
                   else Ok(LastLigature(styles.at[prefix], ligature, |styles.at[prefix].keys|))
    {
      if prefix !in byLigature { return Err("TypeError"); }
      return Ok(Lookup(byLigature[prefix], ligature));
    }

    /** byOldName */
    method ByOldName(name: string) returns (t: Target)
      requires Valid() && Coherent()
      ensures var found := OldNameTarget(shims, "far" in styles.at, name);
        t == if found.Some? then found.value else Target(None, None)
    {
      t := if name in byOldName then byOldName[name] else Target(None, None);
    }
  }

  lemma PulledNothing(ds: seq<Definition>)
    ensures AllPulled(ds).keys == [] <==> ds == []
  {
    if ds != [] {
      var d := ds[|ds| - 1];
      assert d.prefix in AllPulled(ds).at;
      assert d.prefix in AllPulled(ds).keys;
    }
  }
}
