/**
  ClusterManager: the cluster configuration, the token map that indexes it, and its cache file.
*/
module ClusterManager {
  import opened Basics

  // ---------------------------------------------------------------- configurations

  const NEVER_EXPIRES := -1

  datatype ProvisionToken = ProvisionToken(username: string, token: string, generated: int, expiration: int)

  datatype Cluster = Cluster(
    id: string,
    personality: int,
    facilityId: Option<string>,
    aliases: seq<string>,
    behaviorId: string,
    sensorGroups: seq<seq<string>>,
    tokens: seq<ProvisionToken>)

  /** clusters is None where the deserializer left null. */
  datatype Config = Config(id: string, clusters: Option<seq<Cluster>>)

  datatype CacheFile = Missing | Unreadable | Holds(cfg: Option<Config>)

  datatype ConfigError = NullConfig | MissingClusters | BadBehaviors(ids: seq<string>)

  datatype TokenError = NullToken | UnknownToken | ExpiredToken

  function ClusterList(cfg: Option<Config>): seq<Cluster> {
    if cfg.None? || cfg.value.clusters.None? then [] else cfg.value.clusters.value
  }

  function TokensOf(cs: seq<Cluster>): seq<ProvisionToken> {
    if cs == [] then [] else TokensOf(cs[..|cs| - 1]) + cs[|cs| - 1].tokens
  }

  /** Puts the tokens one after the other. */
  function Indexed(ts: seq<ProvisionToken>): map<string, ProvisionToken> {
    if ts == [] then map[] else Indexed(ts[..|ts| - 1])[ts[|ts| - 1].token := ts[|ts| - 1]]
  }

  function IndexOf(cfg: Option<Config>): map<string, ProvisionToken> { Indexed(TokensOf(ClusterList(cfg))) }

  /** isExpired at time now. */
  predicate Expired(pt: ProvisionToken, now: int) { pt.expiration != NEVER_EXPIRES && pt.expiration < now }

  /** ts[i] is the last entry with this token string. */
  ghost predicate LastEntry(ts: seq<ProvisionToken>, i: nat, t: string) {
    i < |ts| && ts[i].token == t && forall j :: i < j < |ts| ==> ts[j].token != t
  }

  /** ... and it never expires, or has not yet done so. */
  ghost predicate CurrentEntry(ts: seq<ProvisionToken>, i: nat, t: string, now: int) {
    LastEntry(ts, i, t) && (ts[i].expiration == -1 || now <= ts[i].expiration)
  }

  /** The index holds, for exactly the token strings that occur, their last entries. */
  lemma {:induction false} LastWins(ts: seq<ProvisionToken>, t: string)
    ensures t in Indexed(ts) <==> exists i :: 0 <= i < |ts| && ts[i].token == t
    ensures t in Indexed(ts) ==> exists i: nat :: LastEntry(ts, i, t) && ts[i] == Indexed(ts)[t]
  {
    if ts != [] {
      var rest, last := ts[..|ts| - 1], ts[|ts| - 1];
      LastWins(rest, t);
      assert ts == rest + [last];
      if last.token == t {
        assert LastEntry(ts, |ts| - 1, t);
      } else if t in Indexed(rest) {
        var i: nat :| LastEntry(rest, i, t) && rest[i] == Indexed(rest)[t];
        assert LastEntry(ts, i, t) && ts[i] == Indexed(ts)[t];
      } else {
        forall i | 0 <= i < |ts| ensures ts[i].token != t {
          if i < |rest| { assert ts[i] == rest[i]; }
        }
      }
    }
  }

  lemma CurrentIff(ts: seq<ProvisionToken>, t: string, now: int)
    ensures (t in Indexed(ts) && !Expired(Indexed(ts)[t], now)) <==> exists i: nat :: CurrentEntry(ts, i, t, now)
  {
    LastWins(ts, t);
    if t in Indexed(ts) {
      var i: nat :| LastEntry(ts, i, t) && ts[i] == Indexed(ts)[t];
      assert CurrentEntry(ts, i, t, now) <==> !Expired(ts[i], now);
      forall j: nat | CurrentEntry(ts, j, t, now) ensures j == i { }
    }
  }

  predicate Accepts(tokens: map<string, ProvisionToken>, t: string, now: int) {
    t in tokens && !Expired(tokens[t], now)
  }

  /**
    When a token is accepted: always if its last entry expires at -1, and otherwise up to and including the time of
    its expiration. So whoever is accepted now was accepted at every earlier time.
  */
  lemma AcceptedUntil(ts: seq<ProvisionToken>, i: nat, t: string)
    requires LastEntry(ts, i, t)
    ensures forall now :: Accepts(Indexed(ts), t, now) <==> ts[i].expiration == -1 || now <= ts[i].expiration
    ensures forall now, earlier :: Accepts(Indexed(ts), t, now) && earlier <= now ==> Accepts(Indexed(ts), t, earlier)
  {
    LastWins(ts, t);
    var j: nat :| LastEntry(ts, j, t) && ts[j] == Indexed(ts)[t];
    assert i == j;
  }

  lemma IndexedSnoc(before: seq<ProvisionToken>, ts: seq<ProvisionToken>, j: nat)
    requires j < |ts|
    ensures Indexed(before + ts[..j + 1]) == Indexed(before + ts[..j])[ts[j].token := ts[j]]
  {
    var all := before + ts[..j + 1];
    assert all[..|all| - 1] == before + ts[..j];
  }

  // ---------------------------------------------------------------- upper and lower case

  /** lower: a character in lower case; fold: what equalsIgnoreCase and CASE_INSENSITIVE_ORDER compare. */
  datatype Letters = Letters(lower: char -> char, fold: char -> char)

  /** Case makes no difference to a comparison that ignores it. */
  ghost predicate LettersOk(l: Letters) { forall c :: l.fold(l.lower(c)) == l.fold(c) }

  function Folded(s: string, l: Letters): string { seq(|s|, i requires 0 <= i < |s| => l.fold(s[i])) }

  function Lowered(s: string, l: Letters): string { seq(|s|, i requires 0 <= i < |s| => l.lower(s[i])) }

  predicate EqualsIgnoreCase(s: string, t: string, l: Letters) { Folded(s, l) == Folded(t, l) }

  const PREFIX := "RSP-"

  /** convertCaseRSPId: what follows the first "RSP-", if there is one, in lower case. */
  function Converted(id: string, l: Letters): string {
    if PREFIX <= id then PREFIX + Lowered(id[|PREFIX|..], l)
    else if id == "" then ""
    else [id[0]] + Converted(id[1..], l)
  }

  lemma FoldedConcat(s: string, t: string, l: Letters)
    ensures Folded(s + t, l) == Folded(s, l) + Folded(t, l)
  {
  }

  lemma FoldedLowered(s: string, l: Letters)
    requires LettersOk(l)
    ensures Folded(Lowered(s, l), l) == Folded(s, l)
  {
  }

  /** The conversion never changes which sensor an id stands for. */
  lemma {:induction false} ConvertedIsSame(id: string, l: Letters)
    requires LettersOk(l)
    ensures EqualsIgnoreCase(Converted(id, l), id, l)
  {
    hide Folded, Lowered;
    if PREFIX <= id {
      var rest := id[|PREFIX|..];
      assert id == PREFIX + rest;
      FoldedLowered(rest, l);
      FoldedConcat(PREFIX, Lowered(rest, l), l);
      FoldedConcat(PREFIX, rest, l);
    } else if id != "" {
      ConvertedIsSame(id[1..], l);
      assert id == [id[0]] + id[1..];
      FoldedConcat([id[0]], Converted(id[1..], l), l);
      FoldedConcat([id[0]], id[1..], l);
    }
  }

  /** id[i] begins the first "RSP-". */
  ghost predicate FirstPrefix(id: string, i: nat) {
    i < |id| && "RSP-" <= id[i..] && forall k :: 0 <= k < i ==> !("RSP-" <= id[k..])
  }

  /** What follows the first "RSP-" is put in lower case. */
  lemma {:induction false} ConvertedFrom(id: string, l: Letters, i: nat)
    requires FirstPrefix(id, i)
    ensures Converted(id, l) == id[..i + 4] + Lowered(id[i + 4..], l)
  {
    hide FirstPrefix, Lowered;
    PrefixAt(id, i);
    if i > 0 {
      PrefixBehind(id, i);
      ConvertedFrom(id[1..], l, i - 1);
      assert id[1..][i + 3..] == id[i + 4..] && [id[0]] + id[1..][..i + 3] == id[..i + 4];
    }
  }

  lemma PrefixAt(id: string, i: nat)
    requires FirstPrefix(id, i)
    ensures i + 4 <= |id| && id != "" && (PREFIX <= id <==> i == 0) && (i == 0 ==> id[..4] == PREFIX)
  {
    assert id[0..] == id;
    assert id[i..][..4] == "RSP-";
  }

  /** An id without it stays as it is. */
  lemma {:induction false} ConvertedNone(id: string, l: Letters)
    requires forall k :: 0 <= k < |id| ==> !("RSP-" <= id[k..])
    ensures Converted(id, l) == id
  {
    if id != "" {
      assert id[0..] == id;
      assert forall k :: 0 <= k < |id| - 1 ==> id[1..][k..] == id[k + 1..];
      ConvertedNone(id[1..], l);
    }
  }

  lemma PrefixBehind(id: string, i: nat)
    requires FirstPrefix(id, i) && !("RSP-" <= id)
    ensures i > 0 && FirstPrefix(id[1..], i - 1)
  {
    assert id[0..] == id;
    assert forall k :: 0 <= k < |id| - 1 ==> id[1..][k..] == id[k + 1..];
  }

  // ---------------------------------------------------------------- searching

  ghost predicate HasToken(c: Cluster, t: string) { exists i :: 0 <= i < |c.tokens| && c.tokens[i].token == t }

  /** The cluster lists a sensor with this id, up to case; key is the id folded. */
  ghost predicate Lists(c: Cluster, key: string, l: Letters) {
    exists g <- c.sensorGroups :: exists s <- g :: Folded(s, l) == key
  }

  ghost function First(cs: seq<Cluster>, p: Cluster -> bool): Option<Cluster> {
    if cs == [] then None else if p(cs[0]) then Some(cs[0]) else First(cs[1..], p)
  }

  lemma {:induction false} FirstAt(cs: seq<Cluster>, p: Cluster -> bool, i: nat)
    requires i <= |cs| && forall k :: 0 <= k < i ==> !p(cs[k])
    ensures First(cs, p) == First(cs[i..], p)
  {
    if i == 0 {
      assert cs[0..] == cs;
    } else {
      FirstAt(cs[1..], p, i - 1);
      assert cs[1..][i - 1..] == cs[i..];
    }
  }

  ghost function WithToken(t: string): Cluster -> bool { c => HasToken(c, t) }

  ghost function WithDevice(key: string, l: Letters): Cluster -> bool { c => Lists(c, key, l) }

  lemma {:induction false} FirstIff(cs: seq<Cluster>, p: Cluster -> bool)
    ensures First(cs, p).Some? <==> exists k :: 0 <= k < |cs| && p(cs[k])
    ensures First(cs, p).Some? ==> p(First(cs, p).value) && First(cs, p).value in cs
  {
    if cs != [] {
      FirstIff(cs[1..], p);
      if First(cs[1..], p).Some? {
        var k :| 0 <= k < |cs[1..]| && p(cs[1..][k]);
        assert cs[k + 1] == cs[1..][k];
      }
      forall k | 0 <= k < |cs| && p(cs[k]) ensures First(cs, p).Some? {
        if k > 0 { assert cs[1..][k - 1] == cs[k]; }
      }
    }
  }

  lemma {:induction false} TokensOfIff(cs: seq<Cluster>, pt: ProvisionToken)
    ensures pt in TokensOf(cs) <==> exists k :: 0 <= k < |cs| && pt in cs[k].tokens
  {
    if cs != [] {
      var rest, last := cs[..|cs| - 1], cs[|cs| - 1];
      TokensOfIff(rest, pt);
      if pt in last.tokens { assert pt in cs[|cs| - 1].tokens; }
      if pt in TokensOf(rest) {
        var k :| 0 <= k < |rest| && pt in rest[k].tokens;
        assert pt in cs[k].tokens;
      }
      forall k | 0 <= k < |cs| && pt in cs[k].tokens ensures pt in TokensOf(cs) {
        if k < |rest| { assert pt in rest[k].tokens; }
      }
    }
  }

  /** A token is in the map exactly when some cluster of the configuration is found by it. */
  lemma KnownIffFound(cs: seq<Cluster>, t: string)
    ensures t in Indexed(TokensOf(cs)) <==> First(cs, WithToken(t)).Some?
  {
    var ts := TokensOf(cs);
    LastWins(ts, t);
    FirstIff(cs, WithToken(t));
    if t in Indexed(ts) {
      var i :| 0 <= i < |ts| && ts[i].token == t;
      TokensOfIff(cs, ts[i]);
      var k :| 0 <= k < |cs| && ts[i] in cs[k].tokens;
      assert HasToken(cs[k], t);
    }
    if First(cs, WithToken(t)).Some? {
      var k :| 0 <= k < |cs| && WithToken(t)(cs[k]);
      var j :| 0 <= j < |cs[k].tokens| && cs[k].tokens[j].token == t;
      TokensOfIff(cs, cs[k].tokens[j]);
      var i :| 0 <= i < |ts| && ts[i] == cs[k].tokens[j];
    }
  }

  /** i is the place of the cluster findClusterByToken finds. */
  ghost predicate FoundAt(cs: seq<Cluster>, t: string, i: nat) {
    i < |cs| && HasToken(cs[i], t) && forall k :: 0 <= k < i ==> !HasToken(cs[k], t)
  }

  /** j is the place of the last cluster that has the token. */
  ghost predicate ValidatedAt(cs: seq<Cluster>, t: string, j: nat) {
    j < |cs| && HasToken(cs[j], t) && forall k :: j < k < |cs| ==> !HasToken(cs[k], t)
  }

  ghost predicate SharedToken(cs: seq<Cluster>, t: string) {
    exists j, k :: 0 <= j < k < |cs| && HasToken(cs[j], t) && HasToken(cs[k], t)
  }

  lemma {:induction false} IndexedConcat(ts: seq<ProvisionToken>, us: seq<ProvisionToken>, t: string)
    ensures t in Indexed(ts + us) <==> t in Indexed(ts) || t in Indexed(us)
    ensures t in Indexed(us) ==> Indexed(ts + us)[t] == Indexed(us)[t]
    ensures t !in Indexed(us) && t in Indexed(ts) ==> Indexed(ts + us)[t] == Indexed(ts)[t]
    decreases |us|
  {
    if us == [] {
      assert ts + us == ts;
    } else {
      var rest := us[..|us| - 1];
      assert (ts + us)[..|ts + us| - 1] == ts + rest;
      IndexedConcat(ts, rest, t);
    }
  }

  /** The entry that validates a token is the last one of the last cluster that has it. */
  lemma {:induction false} ValidatedByLast(cs: seq<Cluster>, t: string, j: nat)
    requires ValidatedAt(cs, t, j)
    ensures t in Indexed(cs[j].tokens) && t in Indexed(TokensOf(cs))
    ensures Indexed(TokensOf(cs))[t] == Indexed(cs[j].tokens)[t]
    decreases |cs|
  {
    var rest, last := cs[..|cs| - 1], cs[|cs| - 1];
    IndexedConcat(TokensOf(rest), last.tokens, t);
    LastWins(last.tokens, t);
    if j < |rest| {
      assert HasToken(cs[j], t) && !HasToken(cs[|cs| - 1], t);
      assert ValidatedAt(rest, t, j);
      ValidatedByLast(rest, t, j);
    }
  }

  /**
    A token is found in the first cluster that has it and validated by an entry of the last one: the same iff it
    is not shared.
  */
  lemma SameClusterIff(cs: seq<Cluster>, t: string, i: nat, j: nat)
    requires FoundAt(cs, t, i) && ValidatedAt(cs, t, j)
    ensures First(cs, WithToken(t)) == Some(cs[i])
    ensures t in Indexed(TokensOf(cs)) && Indexed(TokensOf(cs))[t] in cs[j].tokens
    ensures i == j <==> !SharedToken(cs, t)
  {
    FirstAt(cs, WithToken(t), i);
    assert cs[i..][0] == cs[i];
    ValidatedByLast(cs, t, j);
    LastWins(cs[j].tokens, t);
    if i != j { assert HasToken(cs[i], t) && HasToken(cs[j], t); }
  }

  /** Used in two clusters, a token can be validated by one and found in the other. */
  lemma SharedTokenSplits()
    ensures var a := ProvisionToken("a", "t", 0, NEVER_EXPIRES); var b := ProvisionToken("b", "t", 0, 0);
      var c, d := Cluster("c", 0, None, [], "x", [], [a]), Cluster("d", 0, None, [], "x", [], [b]);
      Indexed(TokensOf([c, d]))["t"] == b && First([c, d], WithToken("t")) == Some(c)
  {
    var a, b := ProvisionToken("a", "t", 0, NEVER_EXPIRES), ProvisionToken("b", "t", 0, 0);
    var c, d := Cluster("c", 0, None, [], "x", [], [a]), Cluster("d", 0, None, [], "x", [], [b]);
    assert [c, d][..1] == [c] && [c][..0] == [];
    assert TokensOf([c]) == [a] && TokensOf([c, d]) == [a, b] && [a, b][..1] == [a];
    assert c.tokens[0].token == "t";
    assert HasToken(c, "t");
  }

  // ---------------------------------------------------------------- the state and what operations make of it

  datatype State = State(cfg: Option<Config>, tokens: map<string, ProvisionToken>, cache: CacheFile)

  /** Behaviour ids, in order, that are not known. */
  function Unknown(cs: seq<Cluster>, knows: string -> bool): seq<string> {
    if cs == [] then []
    else Unknown(cs[..|cs| - 1], knows) + (if knows(cs[|cs| - 1].behaviorId) then [] else [cs[|cs| - 1].behaviorId])
  }

  /** validate */
  function Checked(cfg: Option<Config>, knows: string -> bool): Option<ConfigError> {
    if cfg.None? then Some(NullConfig)
    else if cfg.value.clusters.None? || cfg.value.clusters.value == [] then Some(MissingClusters)
    else if Unknown(cfg.value.clusters.value, knows) != [] then
      Some(BadBehaviors(Unknown(cfg.value.clusters.value, knows)))
    else None
  }

  lemma {:induction false} UnknownIff(cs: seq<Cluster>, knows: string -> bool)
    ensures Unknown(cs, knows) == [] <==> forall c <- cs :: knows(c.behaviorId)
  {
    if cs != [] {
      UnknownIff(cs[..|cs| - 1], knows);
      assert cs == cs[..|cs| - 1] + [cs[|cs| - 1]];
    }
  }

  /** picks are the places, in order, of exactly the clusters whose behaviour is not known. */
  ghost predicate Picks(picks: seq<nat>, cs: seq<Cluster>, knows: string -> bool) {
    && (forall i, j :: 0 <= i < j < |picks| ==> picks[i] < picks[j])
    && (forall i <- picks :: i < |cs| && !knows(cs[i].behaviorId))
    && (forall i :: 0 <= i < |cs| && !knows(cs[i].behaviorId) ==> i in picks)
  }

  lemma PicksSnoc(before: seq<nat>, rest: seq<Cluster>, c: Cluster, knows: string -> bool)
    requires Picks(before, rest, knows)
    ensures Picks(if knows(c.behaviorId) then before else before + [|rest|], rest + [c], knows)
  {
    var cs := rest + [c];
    forall i | 0 <= i < |cs| && !knows(cs[i].behaviorId)
      ensures i in (if knows(c.behaviorId) then before else before + [|rest|])
    {
      if i < |rest| { assert rest[i] == cs[i] && i in before; }
    }
    forall i | 0 <= i < |before| ensures before[i] < |rest| { assert before[i] in before; }
  }

  /** Every cluster with an unknown behaviour is reported, in the order of the configuration. */
  lemma {:induction false} UnknownPicks(cs: seq<Cluster>, knows: string -> bool) returns (picks: seq<nat>)
    ensures Picks(picks, cs, knows) && |picks| == |Unknown(cs, knows)|
    ensures forall i :: 0 <= i < |picks| ==> picks[i] < |cs| && Unknown(cs, knows)[i] == cs[picks[i]].behaviorId
  {
    hide Picks;
    picks := [];
    if cs == [] {
      NoPicks(knows);
      assert cs == [];
    } else {
      var rest, c := cs[..|cs| - 1], cs[|cs| - 1];
      assert cs == rest + [c];
      var before := UnknownPicks(rest, knows);
      PicksSnoc(before, rest, c, knows);
      picks := if knows(c.behaviorId) then before else before + [|rest|];
    }
  }

  lemma NoPicks(knows: string -> bool)
    ensures Picks([], [], knows)
  {
  }

  /** A configuration is accepted exactly when it has clusters and knows all their behaviours. */
  lemma AcceptedIff(cfg: Option<Config>, knows: string -> bool)
    ensures Checked(cfg, knows) == None <==>
      cfg.Some? && cfg.value.clusters.Some? && cfg.value.clusters.value != [] &&
      forall c <- cfg.value.clusters.value :: knows(c.behaviorId)
  {
    UnknownIff(ClusterList(cfg), knows);
  }

  function FileFor(cfg: Option<Config>): CacheFile { if cfg.None? then Missing else Holds(cfg) }

  function Loaded(s: State, cfg: Option<Config>, knows: string -> bool): State {
    if Checked(cfg, knows).Some? then s else State(cfg, IndexOf(cfg), FileFor(cfg))
  }

  function Deleted(s: State): State { State(None, map[], Missing) }

  function Stopped(s: State): State { s.(cache := FileFor(s.cfg)) }

  /** restore assigns the configuration before it validates it. */
  function Started(s: State, knows: string -> bool): State {
    if !s.cache.Holds? then s
    else s.(cfg := s.cache.cfg, tokens := if Checked(s.cache.cfg, knows).Some? then s.tokens else IndexOf(s.cache.cfg))
  }

  datatype Operation = Load(cfg: Option<Config>) | Delete | Stop | Start | Restart

  /** Restart: the process ends, with or without stop, and a new one starts on the cache file. */
  function Do(s: State, o: Operation, knows: string -> bool): State {
    match o
    case Load(cfg) => Loaded(s, cfg, knows)
    case Delete => Deleted(s)
    case Stop => Stopped(s)
    case Start => Started(s, knows)
    case Restart => Started(State(None, map[], s.cache), knows)
  }

  function Run(s: State, os: seq<Operation>, knows: string -> bool): State
    decreases |os|
  {
    if os == [] then s else Run(Do(s, os[0], knows), os[1..], knows)
  }

  /** The token map indexes the configuration and the cache file holds it; what is configured passes validation. */
  ghost predicate Agrees(s: State, knows: string -> bool) {
    && s.tokens == IndexOf(s.cfg) && s.cache == FileFor(s.cfg)
    && (s.cfg.Some? ==> Checked(s.cfg, knows) == None)
  }

  lemma DoAgrees(s: State, o: Operation, knows: string -> bool)
    requires Agrees(s, knows)
    ensures Agrees(Do(s, o, knows), knows)
    ensures o.Start? || o.Stop? || o.Restart? ==> Do(s, o, knows) == s
  {
    assert TokensOf([]) == [];
  }

  /** Over every run with unchanged behaviours; stopping, starting and restarting never change anything. */
  lemma {:induction false} RunAgrees(s: State, os: seq<Operation>, knows: string -> bool)
    requires Agrees(s, knows)
    ensures Agrees(Run(s, os, knows), knows)
    decreases |os|
  {
    if os != [] {
      DoAgrees(s, os[0], knows);
      RunAgrees(Do(s, os[0], knows), os[1..], knows);
    }
  }

  /** A token is accepted, as far as it is known at all, exactly when it leads to a cluster; in every run. */
  lemma RunKnowsTokens(os: seq<Operation>, knows: string -> bool, t: string)
    ensures var s := Run(State(None, map[], Missing), os, knows);
      t in s.tokens <==> First(ClusterList(s.cfg), WithToken(t)).Some?
  {
    var s0 := State(None, map[], Missing);
    assert TokensOf([]) == [];
    assert Agrees(s0, knows);
    RunAgrees(s0, os, knows);
    KnownIffFound(ClusterList(Run(s0, os, knows).cfg), t);
  }

  /** The last entry for a token string, found by going through the list. */
  function LastFor(ts: seq<ProvisionToken>, t: string): Option<ProvisionToken> {
    if ts == [] then None
    else if ts[|ts| - 1].token == t then Some(ts[|ts| - 1])
    else LastFor(ts[..|ts| - 1], t)
  }

  lemma {:induction false} IndexedIsLast(ts: seq<ProvisionToken>, t: string)
    ensures LastFor(ts, t) == if t in Indexed(ts) then Some(Indexed(ts)[t]) else None
  {
    if ts != [] { IndexedIsLast(ts[..|ts| - 1], t); }
  }

  /** The two configurations name the same token strings, with the same last entries. */
  ghost predicate SameLastEntries(c: Option<Config>, d: Option<Config>) {
    forall t :: LastFor(TokensOf(ClusterList(c)), t) == LastFor(TokensOf(ClusterList(d)), t)
  }

  /**
    start leaves map and configuration in step exactly when the cached configuration still validates, or
    has the same tokens as the configuration it replaces.
  */
  lemma StartAgreesIff(s: State, knows: string -> bool)
    requires s.tokens == IndexOf(s.cfg)
    ensures Started(s, knows).tokens == IndexOf(Started(s, knows).cfg) <==>
      (s.cache.Holds? && Checked(s.cache.cfg, knows).Some? ==> SameLastEntries(s.cfg, s.cache.cfg))
  {
    if s.cache.Holds? {
      var ts, us := TokensOf(ClusterList(s.cfg)), TokensOf(ClusterList(s.cache.cfg));
      forall t ensures LastFor(ts, t) == LastFor(us, t) <==>
        ((t in Indexed(ts) <==> t in Indexed(us)) && (t in Indexed(ts) ==> Indexed(ts)[t] == Indexed(us)[t]))
      {
        IndexedIsLast(ts, t);
        IndexedIsLast(us, t);
      }
    }
  }

  /** A run that ends out of step: a token is loaded, its cluster's behaviour disappears, and a new process starts. */
  lemma RestartDisagrees()
    ensures var c := Cluster("c", 0, None, [], "x", [], [ProvisionToken("a", "t", 0, NEVER_EXPIRES)]);
      var s := Run(State(None, map[], Missing), [Load(Some(Config("g", Some([c]))))], _ => true);
      var after := Do(s, Restart, _ => false);
      && Agrees(s, _ => true) && after.cfg == s.cfg
      && "t" !in after.tokens && First(ClusterList(after.cfg), WithToken("t")) == Some(c)
  {
    var c := Cluster("c", 0, None, [], "x", [], [ProvisionToken("a", "t", 0, NEVER_EXPIRES)]);
    var load := Load(Some(Config("g", Some([c]))));
    var all, none: string -> bool := _ => true, _ => false;
    var s0 := State(None, map[], Missing);
    assert [load][1..] == [] && [c][..0] == [] && [c][0] == c;
    assert Unknown([], all) == [] && Unknown([c], all) == [];
    assert Unknown([], none) == [] && Unknown([c], none) == ["x"];
    assert Run(s0, [load], all) == Do(s0, load, all);
    assert c.tokens[0].token == "t" && HasToken(c, "t");
  }

  /** What persist writes, a new process reads back, as long as the behaviours are still known. */
  lemma CacheRestores(s: State, knows: string -> bool)
    requires s.cfg.Some? ==> Checked(s.cfg, knows) == None
    ensures Do(Stopped(s), Restart, knows) == State(s.cfg, IndexOf(s.cfg), FileFor(s.cfg))
  {
    assert TokensOf([]) == [];
  }

  /** In a new process that is: the cached configuration validates, or has no tokens at all. */
  lemma FreshStartAgreesIff(cache: CacheFile, knows: string -> bool)
    ensures var s := Started(State(None, map[], cache), knows);
      s.tokens == IndexOf(s.cfg) <==>
      (cache.Holds? && Checked(cache.cfg, knows).Some? ==> TokensOf(ClusterList(cache.cfg)) == [])
  {
    assert TokensOf([]) == [];
    if cache.Holds? {
      var ts := TokensOf(ClusterList(cache.cfg));
      if ts != [] {
        LastWins(ts, ts[0].token);
        assert ts[0].token in IndexOf(cache.cfg);
      }
    }
  }

  // ---------------------------------------------------------------- sensors

  const NUM_ALIASES := 4
  const DIGITS := "0123"
  const ALIAS_KEY_DEFAULT := "DEFAULT"
  const ALIAS_KEY_DEVICE_ID := "DEVICE_ID"

  /** onePort: a platform whose aliases default to the device id. A personality of None is null. */
  datatype Sensor = Sensor(deviceId: string, provisionToken: Option<string>, facilityId: string,
                           personality: Option<int>,
                           aliases: seq<string>, onePort: bool)

  predicate SensorOk(s: Sensor) { |s.aliases| == NUM_ALIASES }

  /** getDefaultAlias */
  function DefaultAlias(deviceId: string, port: nat): string
    requires port < NUM_ALIASES
  {
    deviceId + "-" + [DIGITS[port]]
  }

  /** `new SensorPlatform(...)` */
  function NewSensor(deviceId: string): (s: Sensor)
    ensures SensorOk(s)
  {
    Sensor(deviceId, None, "DEFAULT_FACILITY", None,
           seq(NUM_ALIASES, i requires 0 <= i < NUM_ALIASES => DefaultAlias(deviceId, i)), false)
  }

  /** What setAliasInternal stores for an alias of the configuration. */
  function Interpreted(deviceId: string, port: nat, alias: string, l: Letters): string
    requires port < NUM_ALIASES
  {
    if alias == "" || EqualsIgnoreCase(ALIAS_KEY_DEFAULT, alias, l) then DefaultAlias(deviceId, port)
    else if EqualsIgnoreCase(ALIAS_KEY_DEVICE_ID, alias, l) then deviceId
    else alias
  }

  /** Port i after setAliases: every port is reset by an empty list, and a longer or shorter list sets what it names. */
  function PortAlias(s: Sensor, aliases: seq<string>, i: nat, l: Letters): string
    requires SensorOk(s) && i < NUM_ALIASES
  {
    if aliases == [] then
      Interpreted(s.deviceId, i, if s.onePort then ALIAS_KEY_DEVICE_ID else ALIAS_KEY_DEFAULT, l)
    else if i < |aliases| then Interpreted(s.deviceId, i, aliases[i], l)
    else s.aliases[i]
  }

  /** lookup: by provisioning token, else by device id. */
  ghost function ClusterFor(cs: seq<Cluster>, s: Sensor, l: Letters): Option<Cluster> {
    var byToken := if s.provisionToken.None? then None else First(cs, WithToken(s.provisionToken.value));
    if byToken.Some? then byToken else First(cs, WithDevice(Folded(s.deviceId, l), l))
  }

  ghost predicate ListedFirst(cs: seq<Cluster>, key: string, l: Letters, i: nat) {
    i < |cs| && Lists(cs[i], key, l) && forall k :: 0 <= k < i ==> !Lists(cs[k], key, l)
  }

  /**
    A sensor belongs to the first cluster that has its token; only if it has no token, or no cluster has it, to the
    first one that lists its id.
  */
  lemma TokenFirst(cs: seq<Cluster>, s: Sensor, l: Letters, i: nat)
    ensures s.provisionToken.Some? && FoundAt(cs, s.provisionToken.value, i) ==> ClusterFor(cs, s, l) == Some(cs[i])
    ensures (s.provisionToken.Some? ==> forall c <- cs :: !HasToken(c, s.provisionToken.value)) ==>
      && (ListedFirst(cs, Folded(s.deviceId, l), l, i) ==> ClusterFor(cs, s, l) == Some(cs[i]))
      && ((forall c <- cs :: !Lists(c, Folded(s.deviceId, l), l)) ==> ClusterFor(cs, s, l).None?)
  {
    hide Folded, HasToken, Lists;
    var key := Folded(s.deviceId, l);
    FirstIff(cs, WithDevice(key, l));
    if s.provisionToken.Some? {
      FirstIff(cs, WithToken(s.provisionToken.value));
      if FoundAt(cs, s.provisionToken.value, i) {
        FirstAt(cs, WithToken(s.provisionToken.value), i);
        assert cs[i..][0] == cs[i];
      }
    }
    if ListedFirst(cs, key, l, i) {
      FirstAt(cs, WithDevice(key, l), i);
      assert cs[i..][0] == cs[i];
    }
  }

  /** alignSensor for the cluster found. */
  function Aligned(s: Sensor, c: Option<Cluster>, l: Letters): (r: Sensor)
    requires SensorOk(s)
    ensures SensorOk(r) && r.deviceId == s.deviceId && r.provisionToken == s.provisionToken
  {
    if c.None? then s
    else s.(facilityId := if c.value.facilityId.Some? then c.value.facilityId.value else s.facilityId,
            personality := Some(c.value.personality),
            aliases := seq(NUM_ALIASES, i requires 0 <= i < NUM_ALIASES => PortAlias(s, c.value.aliases, i, l)))
  }

  /**
    What a sensor takes over from its cluster: the facility if the cluster names one, the personality, and for every
    port the alias listed for it, where no name or "DEFAULT" stands for device id, dash and port number, and
    "DEVICE_ID" for the device id, both in any case. Ports past the end of a list keep their alias; without a list
    each port gets the default, or the device id on platforms with one port. Nothing else changes.
  */
  lemma AlignedTakes(s: Sensor, c: Cluster, l: Letters, i: nat)
    requires SensorOk(s) && i < 4
    ensures var r := Aligned(s, Some(c), l);
      && (c.facilityId.Some? ==> Some(r.facilityId) == c.facilityId)
      && (c.facilityId.None? ==> r.facilityId == s.facilityId)
      && r.personality == Some(c.personality)
      && (r.deviceId, r.provisionToken, r.onePort) == (s.deviceId, s.provisionToken, s.onePort)
    ensures var r, byPort := Aligned(s, Some(c), l), s.deviceId + "-" + ["0123"[i]];
      if c.aliases == [] then r.aliases[i] == if s.onePort then s.deviceId else byPort
      else if |c.aliases| <= i then r.aliases[i] == s.aliases[i]
      else if c.aliases[i] == "" || EqualsIgnoreCase("DEFAULT", c.aliases[i], l) then r.aliases[i] == byPort
      else if EqualsIgnoreCase("DEVICE_ID", c.aliases[i], l) then r.aliases[i] == s.deviceId
      else r.aliases[i] == c.aliases[i]
  {
    KeysDiffer(l);
  }

  /** A comparison that ignores case still sees that the two keywords differ in length. */
  lemma KeysDiffer(l: Letters)
    ensures !EqualsIgnoreCase("DEFAULT", "DEVICE_ID", l)
  {
    assert |Folded("DEFAULT", l)| != |Folded("DEVICE_ID", l)|;
  }

  lemma AlignedTwice(s: Sensor, c: Option<Cluster>, l: Letters)
    requires SensorOk(s)
    ensures Aligned(Aligned(s, c, l), c, l) == Aligned(s, c, l)
  {
    if c.Some? {
      var t := Aligned(s, c, l);
      assert Aligned(t, c, l).aliases == t.aliases;
    }
  }

  /** Aligning twice is aligning once: what alignment changes does not decide the cluster. */
  lemma AlignOnce(cs: seq<Cluster>, s: Sensor, l: Letters)
    requires SensorOk(s)
    ensures var t := Aligned(s, ClusterFor(cs, s, l), l);
      ClusterFor(cs, t, l) == ClusterFor(cs, s, l) && Aligned(t, ClusterFor(cs, t, l), l) == t
  {
    AlignedTwice(s, ClusterFor(cs, s, l), l);
  }

  function Elements(s: seq<string>): set<string> { set x | x in s }

  function GroupIds(groups: seq<seq<string>>): set<string> {
    if groups == [] then {} else GroupIds(groups[..|groups| - 1]) + Elements(groups[|groups| - 1])
  }

  /** The ids listed in the configuration. */
  function ListedIds(cs: seq<Cluster>): set<string> {
    if cs == [] then {} else ListedIds(cs[..|cs| - 1]) + GroupIds(cs[|cs| - 1].sensorGroups)
  }

  lemma {:induction false} GroupIdsIff(groups: seq<seq<string>>, id: string)
    ensures id in GroupIds(groups) <==> exists g <- groups :: id in g
  {
    if groups != [] {
      GroupIdsIff(groups[..|groups| - 1], id);
      assert groups == groups[..|groups| - 1] + [groups[|groups| - 1]];
    }
  }

  ghost predicate Spells(c: Cluster, id: string) { exists g <- c.sensorGroups :: id in g }

  lemma {:induction false} ListedIff(cs: seq<Cluster>, id: string)
    ensures id in ListedIds(cs) <==> exists k :: 0 <= k < |cs| && Spells(cs[k], id)
  {
    if cs != [] {
      var rest, last := cs[..|cs| - 1], cs[|cs| - 1];
      ListedIff(rest, id);
      GroupIdsIff(last.sensorGroups, id);
      if id in ListedIds(rest) {
        var k :| 0 <= k < |rest| && Spells(rest[k], id);
        assert Spells(cs[k], id);
      }
      if id in GroupIds(last.sensorGroups) { assert Spells(cs[|cs| - 1], id); }
      forall k | 0 <= k < |cs| && Spells(cs[k], id) ensures id in ListedIds(cs) {
        if k < |rest| { assert Spells(rest[k], id); }
      }
    }
  }

  /** Some id of the set stands for the sensor with this key. */
  ghost predicate Named(ids: set<string>, key: string, l: Letters) { exists id <- ids :: Folded(id, l) == key }

  /** The sensors named in the configuration are those some cluster lists, up to case. */
  lemma NamedIff(cs: seq<Cluster>, key: string, l: Letters)
    ensures Named(ListedIds(cs), key, l) <==> First(cs, WithDevice(key, l)).Some?
  {
    FirstIff(cs, WithDevice(key, l));
    if Named(ListedIds(cs), key, l) {
      var id :| id in ListedIds(cs) && Folded(id, l) == key;
      ListedIff(cs, id);
      var k :| 0 <= k < |cs| && Spells(cs[k], id);
      assert WithDevice(key, l)(cs[k]);
    }
    if First(cs, WithDevice(key, l)).Some? {
      var k :| 0 <= k < |cs| && WithDevice(key, l)(cs[k]);
      var g :| g in cs[k].sensorGroups && exists s <- g :: Folded(s, l) == key;
      var id :| id in g && Folded(id, l) == key;
      ListedIff(cs, id);
      assert Spells(cs[k], id);
    }
  }

  /** If a token map is empty, sensors are looked up by their device ids alone. */
  lemma NoTokensByDevice(cs: seq<Cluster>, s: Sensor, l: Letters)
    requires Indexed(TokensOf(cs)) == map[]
    ensures ClusterFor(cs, s, l) == First(cs, WithDevice(Folded(s.deviceId, l), l))
  {
    if s.provisionToken.Some? { KnownIffFound(cs, s.provisionToken.value); }
  }

  // ---------------------------------------------------------------- aligning all sensors

  /** The sensor manager's sensors: a tree map that ignores case, so the keys are device ids, folded. */
  type Sensors = map<string, Sensor>

  ghost predicate SensorsOk(sensors: Sensors, l: Letters) {
    forall key <- sensors :: SensorOk(sensors[key]) && Folded(sensors[key].deviceId, l) == key
  }

  /** A sensor made for id, and aligned. */
  ghost predicate MadeFor(s: Sensor, id: string, cs: seq<Cluster>, l: Letters) {
    s == Aligned(NewSensor(Converted(id, l)), First(cs, WithDevice(Folded(id, l), l)), l)
  }

  /** The sensors named by these ids exist and are aligned; those that were there before are still there. */
  ghost predicate AlignedAre(before: Sensors, now: Sensors, ids: set<string>, cs: seq<Cluster>, l: Letters)
    requires SensorsOk(before, l)
  {
    && (forall key <- before :: key in now && now[key] ==
          if Named(ids, key, l) then Aligned(before[key], First(cs, WithDevice(key, l)), l) else before[key])
    && (forall key <- now :: key !in before ==>
          exists id <- ids :: Folded(id, l) == key && MadeFor(now[key], id, cs, l))
    && (forall id <- ids :: Folded(id, l) in now)
  }

  lemma NoneAligned(before: Sensors, cs: seq<Cluster>, l: Letters)
    requires SensorsOk(before, l)
    ensures AlignedAre(before, before, {}, cs, l)
  {
  }

  /** What one turn of the loop of align does to the sensors. */
  ghost predicate OneMore(now: Sensors, next: Sensors, id: string, cs: seq<Cluster>, l: Letters)
    requires SensorsOk(now, l)
  {
    var key := Folded(id, l);
    && next.Keys == now.Keys + {key} && (forall x <- now :: x != key ==> next[x] == now[x])
    && if key in now then next[key] == Aligned(now[key], First(cs, WithDevice(key, l)), l)
       else MadeFor(next[key], id, cs, l)
  }

  lemma MoreNamed(ids: set<string>, id: string, key: string, l: Letters)
    ensures Named(ids + {id}, key, l) <==> Named(ids, key, l) || Folded(id, l) == key
  {
  }

  lemma MoreAligned(before: Sensors, now: Sensors, next: Sensors, ids: set<string>, id: string, cs: seq<Cluster>,
                    l: Letters)
    requires SensorsOk(before, l) && SensorsOk(now, l) && AlignedAre(before, now, ids, cs, l)
    requires OneMore(now, next, id, cs, l)
    ensures AlignedAre(before, next, ids + {id}, cs, l)
  {
    hide Folded, Aligned, NewSensor, First;
    var k := Folded(id, l);
    var c := First(cs, WithDevice(k, l));
    forall key | key in before
      ensures key in next && next[key] ==
        if Named(ids + {id}, key, l) then Aligned(before[key], First(cs, WithDevice(key, l)), l) else before[key]
    {
      MoreNamed(ids, id, key, l);
      if key == k { AlignedTwice(before[key], c, l); }
    }
    forall key | key in next && key !in before
      ensures exists x <- ids + {id} :: Folded(x, l) == key && MadeFor(next[key], x, cs, l)
    {
      if key in now {
        var x :| x in ids && Folded(x, l) == key && MadeFor(now[key], x, cs, l);
        AlignedTwice(NewSensor(Converted(x, l)), First(cs, WithDevice(key, l)), l);
        assert x in ids + {id} && MadeFor(next[key], x, cs, l);
      } else {
        assert id in ids + {id} && MadeFor(next[key], id, cs, l);
      }
    }
  }

  /** The sensor was made for an id that cluster k lists. */
  ghost predicate NewlyListed(s: Sensor, key: string, cs: seq<Cluster>, k: int, id: string, l: Letters) {
    0 <= k < |cs| && Spells(cs[k], id) && Folded(id, l) == key && MadeFor(s, id, cs, l)
  }

  /**
    What aligning to the listed ids comes to: each old sensor has the attributes of the first cluster that lists
    it, and otherwise is as it was; new ones are exactly those some cluster lists, under a listed id converted.
  */
  ghost predicate AlignedTo(before: Sensors, now: Sensors, cs: seq<Cluster>, l: Letters)
    requires SensorsOk(before, l)
  {
    && (forall key :: key in now <==> key in before || First(cs, WithDevice(key, l)).Some?)
    && (forall key <- before :: now[key] == Aligned(before[key], First(cs, WithDevice(key, l)), l))
    && (forall key <- now :: key !in before ==>
          exists k, id :: NewlyListed(now[key], key, cs, k, id, l))
  }

  lemma AlignedToListed(before: Sensors, now: Sensors, cs: seq<Cluster>, l: Letters)
    requires SensorsOk(before, l) && AlignedAre(before, now, ListedIds(cs), cs, l)
    ensures AlignedTo(before, now, cs, l)
  {
    hide Folded, NewSensor, First, ListedIds;
    forall key ensures key in now <==> key in before || First(cs, WithDevice(key, l)).Some? {
      NamedIff(cs, key, l);
    }
    forall key | key in before ensures now[key] == Aligned(before[key], First(cs, WithDevice(key, l)), l) {
      NamedIff(cs, key, l);
    }
    forall key | key in now && key !in before
      ensures exists k, id :: NewlyListed(now[key], key, cs, k, id, l)
    {
      var id :| id in ListedIds(cs) && Folded(id, l) == key && MadeFor(now[key], id, cs, l);
      ListedIff(cs, id);
      var k :| 0 <= k < |cs| && Spells(cs[k], id);
      assert NewlyListed(now[key], key, cs, k, id, l);
    }
  }

  /** Aligning never replaces a sensor: whatever is listed, every old one keeps its id, its token and its key. */
  lemma NeverReplaced(before: Sensors, now: Sensors, cs: seq<Cluster>, l: Letters, key: string)
    requires SensorsOk(before, l) && AlignedTo(before, now, cs, l) && key in before
    ensures key in now && now[key].deviceId == before[key].deviceId
    ensures now[key].provisionToken == before[key].provisionToken
  {
  }

  // ---------------------------------------------------------------- the manager

  class Manager {
    var clusterCfg: Option<Config>
    var tokens: map<string, ProvisionToken>
    var cache: CacheFile                   // the file at CACHE_PATH
    var sensors: Sensors                   // the sensor manager's
    var disconnects: nat                   // calls of disconnectAll

    ghost function View(): State
      reads this
    {
      State(clusterCfg, tokens, cache)
    }

    constructor (cache: CacheFile, sensors: Sensors)
      ensures View() == State(None, map[], cache) && this.sensors == sensors
    {
      clusterCfg, tokens, this.cache, this.sensors, disconnects := None, map[], cache, sensors, 0;
    }

    /** validate */
    static method Validate(cfg: Option<Config>, knows: string -> bool) returns (error: Option<ConfigError>)
      ensures error == Checked(cfg, knows)
      ensures error == Some(NullConfig) <==> cfg.None?
      ensures error == Some(MissingClusters) <==>
        cfg.Some? && (cfg.value.clusters.None? || cfg.value.clusters.value == [])
    {
      if cfg.None? { return Some(NullConfig); }
      if cfg.value.clusters.None? || cfg.value.clusters.value == [] { return Some(MissingClusters); }
      var cs := cfg.value.clusters.value;
      var bad: seq<string> := [];
      for i := 0 to |cs|
        invariant bad == Unknown(cs[..i], knows)
      {
        assert cs[..i + 1][..i] == cs[..i];
        if !knows(cs[i].behaviorId) {
          bad := bad + [cs[i].behaviorId];
        }
      }
      assert cs[..|cs|] == cs;
      error := if bad != [] then Some(BadBehaviors(bad)) else None;
    }

    /** updateTokenMap */
    method UpdateTokenMap()
      requires clusterCfg.Some? ==> clusterCfg.value.clusters.Some?
      modifies `tokens
      ensures tokens == IndexOf(clusterCfg)
    {
      tokens := map[];
      if clusterCfg.None? {
        assert TokensOf([]) == [];
        return;
      }
      var cs := clusterCfg.value.clusters.value;
      for i := 0 to |cs|
        invariant tokens == Indexed(TokensOf(cs[..i]))
      {
        assert cs[..i + 1][..i] == cs[..i];
        PutTokens(cs[i].tokens, TokensOf(cs[..i]));
      }
      assert cs[..|cs|] == cs;
    }

    /** The inner loop of updateTokenMap. */
    method PutTokens(ts: seq<ProvisionToken>, ghost before: seq<ProvisionToken>)
      requires tokens == Indexed(before)
      modifies `tokens
      ensures tokens == Indexed(before + ts)
    {
      assert before + ts[..0] == before;
      for j := 0 to |ts|
        invariant tokens == Indexed(before + ts[..j])
      {
        IndexedSnoc(before, ts, j);
        tokens := tokens[ts[j].token := ts[j]];
      }
      assert ts[..|ts|] == ts;
    }

    /** persist */
    method Persist()
      modifies `cache
      ensures cache == FileFor(clusterCfg)
    {
      cache := if clusterCfg.None? then Missing else Holds(clusterCfg);
    }

    /** loadConfig of a configuration; knows says which behaviours there are. */
    method LoadConfig(newConfig: Option<Config>, knows: string -> bool, l: Letters)
      returns (error: Option<ConfigError>)
      requires SensorsOk(sensors, l) && LettersOk(l)
      modifies this
      ensures error == Checked(newConfig, knows) && View() == Loaded(old(View()), newConfig, knows)
      ensures error.Some? ==> View() == old(View()) && sensors == old(sensors) && disconnects == old(disconnects)
      ensures error.None? ==> clusterCfg == newConfig && cache == Holds(newConfig) && Realigned(l)
      ensures SensorsOk(sensors, l)
    {
      error := Validate(newConfig, knows);
      if error.Some? { return; }
      clusterCfg := newConfig;
      Persist();
      UpdateTokenMap();
      Align(l);
    }

    /** deleteConfig */
    method DeleteConfig(l: Letters) returns (cc: Option<Config>)
      requires SensorsOk(sensors, l) && LettersOk(l)
      modifies this
      ensures cc == old(clusterCfg) && View() == Deleted(old(View()))
      ensures clusterCfg == None && tokens == map[] && cache == Missing
      ensures sensors == old(sensors) && disconnects == old(disconnects)
    {
      cc := clusterCfg;
      clusterCfg := None;
      Persist();
      UpdateTokenMap();
      assert TokensOf([]) == [];
      Align(l);
    }

    /** stop */
    method Shutdown()
      modifies `cache
      ensures View() == Stopped(old(View()))
    {
      Persist();
    }

    /** start: exceptions of restore are logged and forgotten. */
    method Startup(knows: string -> bool)
      modifies `clusterCfg, `tokens
      ensures View() == Started(old(View()), knows)
    {
      match cache
      case Missing =>
      case Unreadable =>
      case Holds(cfg) =>
        clusterCfg := cfg;
        var error := Validate(clusterCfg, knows);
        if error.None? {
          UpdateTokenMap();
        }
    }

    /** validateToken at time now. */
    method ValidateToken(token: Option<string>, now: int) returns (error: Option<TokenError>)
      ensures error == match token
        case None => Some(NullToken)
        case Some(t) =>
          if t !in tokens then Some(UnknownToken)
          else if Expired(tokens[t], now) then Some(ExpiredToken)
          else None
      ensures tokens == IndexOf(clusterCfg) && token.Some? ==>
        (error == Some(UnknownToken) <==> First(ClusterList(clusterCfg), WithToken(token.value)).None?)
      ensures tokens == IndexOf(clusterCfg) && token.Some? ==>
        (error == None <==> exists i: nat :: CurrentEntry(TokensOf(ClusterList(clusterCfg)), i, token.value, now))
      ensures error == Some(NullToken) <==> token.None?
    {
      if token.None? { return Some(NullToken); }
      KnownIffFound(ClusterList(clusterCfg), token.value);
      CurrentIff(TokensOf(ClusterList(clusterCfg)), token.value, now);
      if token.value !in tokens { return Some(UnknownToken); }
      var pt := tokens[token.value];
      if Expired(pt, now) { return Some(ExpiredToken); }
      return None;
    }

    /** findClusterByToken */
    method FindClusterByToken(token: Option<string>) returns (c: Option<Cluster>)
      requires clusterCfg.Some? ==> clusterCfg.value.clusters.Some?
      ensures c == if token.None? then None else First(ClusterList(clusterCfg), WithToken(token.value))
    {
      if token.None? || clusterCfg.None? { return None; }
      var cs, t := clusterCfg.value.clusters.value, token.value;
      for i := 0 to |cs|
        invariant forall k :: 0 <= k < i ==> !WithToken(t)(cs[k])
      {
        for j := 0 to |cs[i].tokens|
          invariant forall k :: 0 <= k < j ==> cs[i].tokens[k].token != t
        {
          if cs[i].tokens[j].token == t {
            FirstAt(cs, WithToken(t), i);
            return Some(cs[i]);
          }
        }
      }
      FirstAt(cs, WithToken(t), |cs|);
      return None;
    }

    /** findClusterByDeviceId */
    method FindClusterByDeviceId(id: string, l: Letters) returns (c: Option<Cluster>)
      requires clusterCfg.Some? ==> clusterCfg.value.clusters.Some?
      ensures c == First(ClusterList(clusterCfg), WithDevice(Folded(id, l), l))
    {
      if clusterCfg.None? { return None; }
      var cs, key := clusterCfg.value.clusters.value, Folded(id, l);
      for i := 0 to |cs|
        invariant forall k :: 0 <= k < i ==> !WithDevice(key, l)(cs[k])
      {
        var groups := cs[i].sensorGroups;
        for j := 0 to |groups|
          invariant forall g <- groups[..j] :: forall s <- g :: Folded(s, l) != key
        {
          for n := 0 to |groups[j]|
            invariant forall s <- groups[j][..n] :: Folded(s, l) != key
          {
            if EqualsIgnoreCase(groups[j][n], id, l) {
              assert groups[j] in groups && groups[j][n] in groups[j];
              FirstAt(cs, WithDevice(key, l), i);
              return Some(cs[i]);
            }
          }
          assert groups[j][..|groups[j]|] == groups[j];
          assert groups[..j + 1] == groups[..j] + [groups[j]];
        }
        assert groups[..|groups|] == groups;
      }
      FirstAt(cs, WithDevice(key, l), |cs|);
      return None;
    }

    /** lookup */
    method LookUp(s: Sensor, l: Letters) returns (c: Option<Cluster>)
      requires clusterCfg.Some? ==> clusterCfg.value.clusters.Some?
      ensures c == ClusterFor(ClusterList(clusterCfg), s, l)
    {
      c := FindClusterByToken(s.provisionToken);
      if c.None? {
        c := FindClusterByDeviceId(s.deviceId, l);
      }
    }

    /** SensorPlatform.setAliases */
    static method SetAliases(s: Sensor, aliases: seq<string>, l: Letters) returns (r: Sensor)
      requires SensorOk(s)
      ensures r == s.(aliases := seq(NUM_ALIASES, i requires 0 <= i < NUM_ALIASES => PortAlias(s, aliases, i, l)))
    {
      var ports := s.aliases;
      if aliases == [] {
        var key := if s.onePort then ALIAS_KEY_DEVICE_ID else ALIAS_KEY_DEFAULT;
        for port := 0 to NUM_ALIASES
          invariant |ports| == NUM_ALIASES
          invariant forall i :: 0 <= i < port ==> ports[i] == PortAlias(s, aliases, i, l)
        {
          ports := ports[port := Interpreted(s.deviceId, port, key, l)];
        }
      } else {
        for i := 0 to |aliases|
          invariant |ports| == NUM_ALIASES
          invariant forall k :: 0 <= k < NUM_ALIASES ==>
            ports[k] == if k < i then PortAlias(s, aliases, k, l) else s.aliases[k]
        {
          if i < NUM_ALIASES {
            ports := ports[i := Interpreted(s.deviceId, i, aliases[i], l)];
          }
        }
      }
      r := s.(aliases := ports);
      assert ports == seq(NUM_ALIASES, i requires 0 <= i < NUM_ALIASES => PortAlias(s, aliases, i, l));
    }

    /** alignSensor, for a sensor of the sensor manager. */
    method AlignSensor(key: string, l: Letters)
      requires key in sensors && SensorOk(sensors[key]) && (clusterCfg.Some? ==> clusterCfg.value.clusters.Some?)
      modifies `sensors
      ensures sensors ==
        old(sensors)[key := Aligned(old(sensors)[key], ClusterFor(ClusterList(clusterCfg), old(sensors)[key], l), l)]
    {
      var s := sensors[key];
      var c := LookUp(s, l);
      if c.None? { return; }
      if c.value.facilityId.Some? && c.value.facilityId.value != s.facilityId {
        s := s.(facilityId := c.value.facilityId.value);
      }
      if s.personality != Some(c.value.personality) {
        s := s.(personality := Some(c.value.personality));
      }
      s := SetAliases(s, c.value.aliases, l);
      assert s.aliases == Aligned(sensors[key], c, l).aliases;
      sensors := sensors[key := s];
    }

    /** SensorManager.establish: the sensor with this id, up to case; made under the converted id if there is none. */
    method Establish(id: string, l: Letters) returns (key: string)
      requires SensorsOk(sensors, l) && LettersOk(l)
      modifies `sensors
      ensures key == Folded(id, l) && SensorsOk(sensors, l)
      ensures sensors == if key in old(sensors) then old(sensors) else old(sensors)[key := NewSensor(Converted(id, l))]
      ensures key !in old(sensors) ==>
        var s := sensors[key];
        s.deviceId == Converted(id, l) && s.provisionToken == None && s.facilityId == "DEFAULT_FACILITY"
    {
      key := Folded(id, l);
      ConvertedIsSame(id, l);
      if key !in sensors {
        var convertedId := Converted(id, l);
        sensors := sensors[Folded(convertedId, l) := NewSensor(convertedId)];
      }
    }

    /** What align leaves: with tokens all sensors were told to reconnect, without them the listed ones are aligned. */
    twostate predicate Realigned(l: Letters)
      requires SensorsOk(old(sensors), l)
      reads this
    {
      if tokens != map[] then disconnects == old(disconnects) + 1 && sensors == old(sensors)
      else disconnects == old(disconnects) && AlignedTo(old(sensors), sensors, ClusterList(clusterCfg), l)
    }

    /** The ids of all sensor groups. */
    method SensorIds() returns (ids: set<string>)
      requires clusterCfg.Some? ==> clusterCfg.value.clusters.Some?
      ensures ids == ListedIds(ClusterList(clusterCfg))
    {
      ids := {};
      if clusterCfg.None? { return; }
      var cs := clusterCfg.value.clusters.value;
      for i := 0 to |cs|
        invariant ids == ListedIds(cs[..i])
      {
        var groups := cs[i].sensorGroups;
        assert cs[..i + 1][..i] == cs[..i];
        for j := 0 to |groups|
          invariant ids == ListedIds(cs[..i]) + GroupIds(groups[..j])
        {
          assert groups[..j + 1][..j] == groups[..j];
          ids := ids + Elements(groups[j]);
        }
        assert groups[..|groups|] == groups;
      }
      assert cs[..|cs|] == cs;
    }

    /** align, without its pausing of the scheduler. */
    method Align(l: Letters)
      requires SensorsOk(sensors, l) && LettersOk(l)
      requires (clusterCfg.Some? ==> clusterCfg.value.clusters.Some?) && tokens == IndexOf(clusterCfg)
      modifies `sensors, `disconnects
      ensures SensorsOk(sensors, l) && Realigned(l)
      ensures clusterCfg.None? ==> sensors == old(sensors) && disconnects == old(disconnects)
    {
      if tokens != map[] {
        disconnects := disconnects + 1;
      } else {
        var ids := SensorIds();
        AlignAll(ids, l);
        AlignedToListed(old(sensors), sensors, ClusterList(clusterCfg), l);
      }
    }

    /** The loop of align, in any order. */
    method AlignAll(ids: set<string>, l: Letters)
      requires SensorsOk(sensors, l) && LettersOk(l)
      requires (clusterCfg.Some? ==> clusterCfg.value.clusters.Some?) && tokens == IndexOf(clusterCfg) == map[]
      modifies `sensors
      ensures SensorsOk(sensors, l) && AlignedAre(old(sensors), sensors, ids, ClusterList(clusterCfg), l)
      ensures ids == {} ==> sensors == old(sensors)
    {
      hide AlignedAre, OneMore, IndexOf, SensorsOk;
      NoneAligned(sensors, ClusterList(clusterCfg), l);
      var todo := ids;
      ghost var done: set<string> := {};
      while todo != {}
        invariant done + todo == ids && SensorsOk(sensors, l)
        invariant AlignedAre(old(sensors), sensors, done, ClusterList(clusterCfg), l)
        invariant done == {} ==> sensors == old(sensors)
        decreases todo
      {
        var id: string :| id in todo;
        ghost var now := sensors;
        AlignOne(id, l);
        MoreAligned(old(sensors), now, sensors, done, id, ClusterList(clusterCfg), l);
        done, todo := done + {id}, todo - {id};
      }
    }

    /** The loop body of align. */
    method AlignOne(id: string, l: Letters)
      requires SensorsOk(sensors, l) && LettersOk(l)
      requires (clusterCfg.Some? ==> clusterCfg.value.clusters.Some?) && tokens == IndexOf(clusterCfg) == map[]
      modifies `sensors
      ensures SensorsOk(sensors, l) && OneMore(old(sensors), sensors, id, ClusterList(clusterCfg), l)
    {
      var key := Establish(id, l);
      NoTokensByDevice(ClusterList(clusterCfg), sensors[key], l);
      AlignSensor(key, l);
    }
  }
}
