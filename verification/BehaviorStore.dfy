/** BehaviorConfig: sensor behaviors kept one to a file, read back through a directory listing. */
module BehaviorStore {
  import opened Basics

  /** settings stands for everything but the id. */
  datatype Behavior = Behavior(id: string, settings: int)

  const DEFAULT_ID := "Default"

  /** What `new Behavior()` gives. */
  const DEFAULT_BEHAVIOR := Behavior(DEFAULT_ID, 0)

  /** Garbage: a file or directory that cannot be read as a behavior. */
  datatype Content = Holds(behavior: Behavior) | Garbage

  type Files = map<string, Content>

  const SUFFIX := ".json"

  function FileName(id: string): string { id + SUFFIX }

  /** `s.lastIndexOf(t)` among the first n + 1 positions. */
  function LastIndexOf(s: string, t: string, n: nat): (i: int)
    requires n <= |s|
    ensures -1 <= i <= n
    ensures i >= 0 ==> t <= s[i..]
    ensures forall k :: i < k <= n ==> !(t <= s[k..])
  {
    if t <= s[n..] then n else if n == 0 then -1 else LastIndexOf(s, t, n - 1)
  }

  /** The key available() stores a file under. */
  function KeyOf(name: string): string {
    var i := LastIndexOf(name, SUFFIX, |name|);
    if i > 0 then name[..i] else name
  }

  lemma KeyOfFileName(id: string)
    ensures FileName(id) == id + ".json" && KeyOf(id + ".json") == if id == "" then ".json" else id
  {
    var name := FileName(id);
    assert name[|id|..] == SUFFIX && name[..|id|] == id;
    var i := LastIndexOf(name, SUFFIX, |name|);
    forall k | |id| < k <= |name| ensures !(SUFFIX <= name[k..]) {
      assert |name[k..]| < |SUFFIX|;
    }
  }

  lemma FileNameInjective(a: string, b: string)
    requires FileName(a) == FileName(b)
    ensures a == b
  {
    assert FileName(a)[..|FileName(a)| - |SUFFIX|] == a && FileName(b)[..|FileName(b)| - |SUFFIX|] == b;
  }

  /** The directory listing: every file once, in whatever order. */
  ghost predicate IsListing(order: seq<string>, files: Files) {
    Distinct(order) && forall name :: name in order <==> name in files
  }

  /** available(), after the first files of the listing. */
  function Available(files: Files, order: seq<string>): map<string, Behavior>
    requires forall name <- order :: name in files
  {
    if order == [] then map[DEFAULT_ID := DEFAULT_BEHAVIOR]
    else
      var name := order[|order| - 1];
      var rest := Available(files, order[..|order| - 1]);
      if files[name].Holds? then rest[KeyOf(name) := files[name].behavior] else rest
  }

  // ---------------------------------------------------------------- stores written by put

  predicate WrittenAs(name: string, c: Content) {
    c.Holds? && name == FileName(c.behavior.id) && '/' !in c.behavior.id
  }

  predicate WrittenByPut(files: Files) { forall name <- files :: WrittenAs(name, files[name]) }

  /** Behavior id of the store: its file, or the built-in default. */
  function Stored(files: Files, id: string): Option<Behavior> {
    if FileName(id) in files && files[FileName(id)].Holds? then Some(files[FileName(id)].behavior)
    else if id == DEFAULT_ID then Some(DEFAULT_BEHAVIOR)
    else None
  }

  /** The only two ids whose files share a key. */
  ghost predicate Clash(files: Files) { FileName("") in files && FileName(SUFFIX) in files }

  ghost predicate Finds(avail: map<string, Behavior>, id: string, b: Behavior) {
    exists key :: key in avail && avail[key] == b && b.id == id
  }

  /** Among the listed files, the one for this id. */
  ghost predicate Listed(order: seq<string>, id: string) { FileName(id) in order }

  /** The behavior a key should hold. */
  function Expected(files: Files, order: seq<string>, key: string): Behavior
    requires WrittenByPut(files) && (forall name <- order :: name in files)
  {
    if key != "" && FileName(key) in order then files[FileName(key)].behavior
    else if key == SUFFIX && FileName("") in order then files[FileName("")].behavior
    else DEFAULT_BEHAVIOR
  }

  /** Every key holds the behavior its file was written for; the default one holds when its own file is not listed. */
  lemma {:induction false} AvailableIs(files: Files, order: seq<string>, key: string)
    requires WrittenByPut(files) && Distinct(order) && (forall name <- order :: name in files)
    requires !(Listed(order, "") && Listed(order, SUFFIX))
    ensures var avail := Available(files, order);
      && (key in avail <==>
            key == DEFAULT_ID || (key != "" && Listed(order, key)) || (key == SUFFIX && Listed(order, "")))
      && (key in avail ==> avail[key] == Expected(files, order, key))
  {
    hide FileName, KeyOf;
    if order != [] {
      var rest, name := order[..|order| - 1], order[|order| - 1];
      assert order == rest + [name];
      assert WrittenAs(name, files[name]);
      AvailableIs(files, rest, key);
      KeyOfFileName(files[name].behavior.id);
      if FileName(key) == name { FileNameInjective(key, files[name].behavior.id); }
      if FileName("") == name { FileNameInjective("", files[name].behavior.id); }
    }
  }

  /** Without a clash a lookup finds exactly the store's own behavior for an id, in every listing order. */
  lemma FindsStored(files: Files, order: seq<string>, id: string, b: Behavior)
    requires WrittenByPut(files) && IsListing(order, files) && !Clash(files)
    ensures Finds(Available(files, order), id, b) <==> Stored(files, id) == Some(b)
  {
    var avail := Available(files, order);
    if Finds(avail, id, b) {
      var key :| key in avail && avail[key] == b && b.id == id;
      AvailableIs(files, order, key);
      KeyHolds(files, key);
      if Listed(order, "") { KeyHolds(files, ""); }
      AvailableIs(files, order, DEFAULT_ID);
    }
    if Stored(files, id) == Some(b) {
      KeyHolds(files, id);
      var key := if id == "" then SUFFIX else id;
      AvailableIs(files, order, key);
      assert avail[key] == b;
    }
  }

  lemma KeyHolds(files: Files, id: string)
    requires WrittenByPut(files)
    ensures FileName(id) in files ==> files[FileName(id)].Holds? && files[FileName(id)].behavior.id == id
  {
    if FileName(id) in files {
      assert WrittenAs(FileName(id), files[FileName(id)]);
      FileNameInjective(id, files[FileName(id)].behavior.id);
    }
  }

  /**
    A lookup of "Default" succeeds in every directory written by put; while nothing is stored under that id it
    gives the built-in behavior.
  */
  lemma DefaultAlwaysFound(files: Files, order: seq<string>)
    requires WrittenByPut(files) && IsListing(order, files)
    ensures exists b :: Finds(Available(files, order), "Default", b)
    ensures FileName("Default") !in files ==>
      forall b :: Finds(Available(files, order), "Default", b) <==> b == Behavior("Default", 0)
  {
    DefaultIs(files, order);
    assert Finds(Available(files, order), "Default", Available(files, order)["Default"]);
    forall b | Finds(Available(files, order), "Default", b) && FileName("Default") !in files
      ensures b == Behavior("Default", 0)
    {
      var key :| key in Available(files, order) && Available(files, order)[key] == b && b.id == "Default";
      HeldUnderKey(files, order, key);
    }
  }

  lemma {:induction false} DefaultIs(files: Files, order: seq<string>)
    requires WrittenByPut(files) && (forall name <- order :: name in files)
    ensures
      var avail := Available(files, order);
      && "Default" in avail && avail["Default"].id == "Default"
      && (FileName("Default") !in order ==> avail["Default"] == Behavior("Default", 0))
  {
    hide FileName, KeyOf;
    if order != [] {
      var rest, name := order[..|order| - 1], order[|order| - 1];
      assert order == rest + [name];
      assert WrittenAs(name, files[name]);
      DefaultIs(files, rest);
      KeyOfFileName(files[name].behavior.id);
    }
  }

  /** b is stored for id, and looking id up in the listing does not give it. */
  ghost predicate Hidden(files: Files, order: seq<string>, id: string, b: Behavior)
    requires forall name <- order :: name in files
  {
    Stored(files, id) == Some(b) && !Finds(Available(files, order), id, b)
  }

  /** With both clashing files on disk, one of their behaviors cannot be found, whatever the order. */
  lemma ClashHides(files: Files, order: seq<string>)
    requires WrittenByPut(files) && IsListing(order, files) && Clash(files)
    ensures exists id, b :: (id == "" || id == SUFFIX) && Hidden(files, order, id, b)
  {
    var avail := Available(files, order);
    KeyHolds(files, "");
    KeyHolds(files, SUFFIX);
    var e, s := files[FileName("")].behavior, files[FileName(SUFFIX)].behavior;
    assert Stored(files, "") == Some(e) && Stored(files, SUFFIX) == Some(s);
    assert Hidden(files, order, "", e) <==> !Finds(avail, "", e);
    assert Hidden(files, order, SUFFIX, s) <==> !Finds(avail, SUFFIX, s);
    if Finds(avail, "", e) && Finds(avail, SUFFIX, s) {
      var k :| k in avail && avail[k] == e && e.id == "";
      var l :| l in avail && avail[l] == s && s.id == SUFFIX;
      HeldUnderKey(files, order, k);
      HeldUnderKey(files, order, l);
      assert false;
    }
  }

  /** Behaviors are kept under the key of their own file. */
  lemma {:induction false} HeldUnderKey(files: Files, order: seq<string>, key: string)
    requires WrittenByPut(files) && (forall name <- order :: name in files)
    requires key in Available(files, order)
    ensures var b := Available(files, order)[key]; key == if b.id == "" then SUFFIX else b.id
  {
    hide FileName, KeyOf;
    if order != [] {
      var rest, name := order[..|order| - 1], order[|order| - 1];
      assert WrittenAs(name, files[name]);
      KeyOfFileName(files[name].behavior.id);
      if key in Available(files, rest) { HeldUnderKey(files, rest, key); }
    }
  }

  /** Lookups behave like the map from id to behavior in every listing order exactly when the two do not clash. */
  lemma RefinesIff(files: Files, order: seq<string>)
    requires WrittenByPut(files) && IsListing(order, files)
    ensures (forall id, b :: Finds(Available(files, order), id, b) <==> Stored(files, id) == Some(b))
      <==> !(".json" in files && ".json.json" in files)
  {
    assert FileName("") == ".json" && FileName(SUFFIX) == ".json.json";
    if Clash(files) {
      ClashHides(files, order);
    } else {
      forall id, b ensures Finds(Available(files, order), id, b) <==> Stored(files, id) == Some(b) {
        FindsStored(files, order, id, b);
      }
    }
  }

  // ---------------------------------------------------------------- the store

  datatype Failure = UnableToLocate | NotFoundOnDisk

  class Store {
    var files: Files   // the directory of behaviors

    constructor (files: Files)
      ensures this.files == files
    {
      this.files := files;
    }

    /** available */
    method AvailableBehaviors(order: seq<string>) returns (avail: map<string, Behavior>)
      requires IsListing(order, files)
      ensures avail == Available(files, order)
    {
      avail := map[DEFAULT_ID := DEFAULT_BEHAVIOR];
      for i := 0 to |order|
        invariant avail == Available(files, order[..i])
      {
        assert order[..i + 1][..i] == order[..i];
        var f := order[i];
        assert f in order;
        match files[f] {
          case Holds(b) => avail := avail[KeyOf(f) := b];
          case Garbage =>
        }
      }
      assert order[..|order|] == order;
    }

    /** put */
    method Put(b: Behavior)
      modifies this
      ensures files == old(files)[b.id + ".json" := Holds(b)]
      ensures Stored(files, b.id) == Some(b)
      ensures forall id :: id != b.id ==> Stored(files, id) == Stored(old(files), id)
      ensures WrittenByPut(old(files)) && '/' !in b.id ==> WrittenByPut(files)
    {
      files := files[FileName(b.id) := Holds(b)];
      forall id | id != b.id ensures FileName(id) != FileName(b.id) {
        if FileName(id) == FileName(b.id) { FileNameInjective(id, b.id); }
      }
    }

    /** getBehavior: the first of the available ones, in the order of their keys, that has the id. */
    method GetBehavior(id: string, order: seq<string>, keys: seq<string>) returns (r: Result<Behavior, Failure>)
      requires IsListing(order, files) && (forall k :: k in keys <==> k in Available(files, order))
      ensures r.Ok? ==> Finds(Available(files, order), id, r.value)
      ensures r.Err? ==> r.error == UnableToLocate && forall b :: !Finds(Available(files, order), id, b)
      ensures WrittenByPut(files) && !Clash(files) ==>
        r == match Stored(files, id) case Some(b) => Ok(b) case None => Err(UnableToLocate)
    {
      var avail := AvailableBehaviors(order);
      ForAllFound(files, order, id);
      for i := 0 to |keys|
        invariant forall k <- keys[..i] :: avail[k].id != id
      {
        assert keys[i] in keys;
        if avail[keys[i]].id == id {
          assert Finds(avail, id, avail[keys[i]]);
          return Ok(avail[keys[i]]);
        }
        assert keys[..i + 1] == keys[..i] + [keys[i]];
      }
      assert keys[..|keys|] == keys;
      return Err(UnableToLocate);
    }

    /** deleteBehavior */
    method DeleteBehavior(id: string, order: seq<string>, keys: seq<string>) returns (r: Result<Behavior, Failure>)
      requires IsListing(order, files) && (forall k :: k in keys <==> k in Available(files, order))
      modifies this
      ensures r.Err? ==> files == old(files)
      ensures r.Ok? ==> id + ".json" in old(files) && files == old(files) - {id + ".json"}
      ensures WrittenByPut(old(files)) && !Clash(old(files)) ==>
        && (r.Ok? <==> FileName(id) in old(files))
        && (r.Ok? ==> Some(r.value) == Stored(old(files), id) && WrittenByPut(files))
    {
      if WrittenByPut(files) { KeyHolds(files, id); }
      var behavior := GetBehavior(id, order, keys);
      if behavior.Err? { return behavior; }
      if FileName(id) in files {
        files := files - {FileName(id)};
        return behavior;
      }
      return Err(NotFoundOnDisk);
    }
  }

  lemma ForAllFound(files: Files, order: seq<string>, id: string)
    requires IsListing(order, files)
    ensures WrittenByPut(files) && !Clash(files) ==>
      forall b :: Finds(Available(files, order), id, b) <==> Stored(files, id) == Some(b)
  {
    if WrittenByPut(files) && !Clash(files) {
      forall b ensures Finds(Available(files, order), id, b) <==> Stored(files, id) == Some(b) {
        FindsStored(files, order, id, b);
      }
    }
  }
}
